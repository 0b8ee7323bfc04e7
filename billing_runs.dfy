/** The billing service's operations on the store: picking the tenants due
    today, generating one bill, the monthly run, the initial bill, an
    in-person payment, the overdue sweep and the backfill. Each method is
    specified by a function over the tables; the run functions carry the
    properties a second run depends on. */
module BillingRuns {
  import opened Wrappers
  import opened Calendar
  import opened Entities
  import opened BillModel
  import opened MeterModel
  import opened Store
  import opened BillingService
  import Resilient = ResilienceMeterReadingService

  // ---------------------------------------------------------------------------
  // Tenants due for a bill

  /** `Users.Where(u => u.RoomId.HasValue)`. */
  function WithRoom(users: seq<Tenant>): (ts: seq<Tenant>)
    ensures forall t :: t in ts <==> t in users && t.roomId.Some?
    ensures |ts| <= |users|
  {
    if |users| == 0 then []
    else
      var last := users[|users| - 1];
      WithRoom(users[..|users| - 1]) + (if last.roomId.Some? then [last] else [])
  }

  /** Whether a tenant with a room is due for a bill on `date`: it is their
      billing day, and it is either their first month or a reading exists for
      the month (the reading service is the resilient one, here reachable). */
  predicate IsDueTenant(t: Tenant, readings: seq<MeterReading>, date: Date) {
    IsBillingDayForTenant(t.startDate, date) &&
    (IsFirstBillingMonth(t.startDate, date) ||
     Resilient.HasCompletedReadingForBillingPeriod(readings, t.id, date, false))
  }

  /** The due tenants among `ts`, in order. */
  function DueAmong(ts: seq<Tenant>, readings: seq<MeterReading>, date: Date): (due: seq<Tenant>)
    ensures forall t :: t in due <==> t in ts && IsDueTenant(t, readings, date)
  {
    if |ts| == 0 then []
    else
      var last := ts[|ts| - 1];
      DueAmong(ts[..|ts| - 1], readings, date) + (if IsDueTenant(last, readings, date) then [last] else [])
  }

  /** `GetTenantsWithDueBillsAsync`. */
  method GetTenantsWithDueBills(db: Database, currentDate: Date) returns (due: seq<Tenant>)
    ensures due == DueAmong(WithRoom(db.users), db.readings, currentDate)
  {
    var tenantsWithRooms := WithRoom(db.users);
    due := [];
    var i := 0;
    while i < |tenantsWithRooms|
      invariant 0 <= i <= |tenantsWithRooms|
      invariant due == DueAmong(tenantsWithRooms[..i], db.readings, currentDate)
    {
      var tenant := tenantsWithRooms[i];
      assert tenantsWithRooms[..i + 1][..i] == tenantsWithRooms[..i];
      if IsBillingDayForTenant(tenant.startDate, currentDate) {
        var isFirstMonth := IsFirstBillingMonth(tenant.startDate, currentDate);
        var hasReading := Resilient.HasCompletedReadingForBillingPeriod(db.readings, tenant.id, currentDate, false);
        if isFirstMonth || hasReading {
          due := due + [tenant];
        }
      }
      i := i + 1;
    }
    assert tenantsWithRooms[..i] == tenantsWithRooms;
  }

  /** The tenants due on a date are exactly those with a room whose billing
      day it is, and who are in their first month or have a reading in it. */
  lemma DueTenantsAreExactly(users: seq<Tenant>, readings: seq<MeterReading>, currentDate: Date)
    ensures forall t :: t in DueAmong(WithRoom(users), readings, currentDate) <==>
              t in users && t.roomId.Some? && IsBillingDayForTenant(t.startDate, currentDate) &&
              (IsFirstBillingMonth(t.startDate, currentDate) ||
               exists m :: m in readings && m.tenantId == t.id && SameMonth(m.readingDate, currentDate))
  {
  }

  // ---------------------------------------------------------------------------
  // One bill, and the monthly run

  /** `GenerateBillForTenantAsync`: inserts the tenant's bill for `billingDate`,
      or throws without inserting anything. */
  method GenerateBillForTenant(db: Database, tenantId: string, billingDate: Date) returns (r: Result<Bill, ChainError>)
    modifies db`bills
    ensures r == BillForTenant(db.users, db.rooms, db.readings, tenantId, billingDate)
    ensures r.Ok? ==> db.bills == old(db.bills) + [r.value]
    ensures r.Err? ==> db.bills == old(db.bills)
  {
    r := BillForTenant(db.users, db.rooms, db.readings, tenantId, billingDate);
    if r.Ok? {
      db.bills := db.bills + [r.value];
    }
  }

  /** The existence check of the monthly run: a bill of the tenant whose billing
      date lies in the month of `d`. */
  predicate HasBillDatedInMonth(bills: seq<Bill>, tenantId: string, d: Date) {
    exists i :: 0 <= i < |bills| && bills[i].tenantId == tenantId && SameMonth(bills[i].billingDate, d)
  }

  /** One bill generation: the bill for a tenant id and billing date, or the
      error the generation throws. The runs below are stated for any generator;
      the service's own is `Generator`. */
  type BillGenerator = (string, Date) -> Result<Bill, ChainError>

  /** `GenerateBillForTenantAsync` over fixed users, rooms and readings. */
  function Generator(users: seq<Tenant>, rooms: seq<Room>, readings: seq<MeterReading>): BillGenerator {
    (tenantId: string, billingDate: Date) => BillForTenant(users, rooms, readings, tenantId, billingDate)
  }

  /** A generated bill belongs to the tenant asked for and is keyed on the billing
      date asked for, both by its billing date and by its month and year columns. */
  ghost predicate KeyedGenerator(gen: BillGenerator) {
    forall tenantId, d :: gen(tenantId, d).Ok? ==>
      gen(tenantId, d).value.tenantId == tenantId && gen(tenantId, d).value.billingDate == d &&
      gen(tenantId, d).value.billingMonth == d.month && gen(tenantId, d).value.billingYear == d.year
  }

  /** The service's generator is keyed. */
  lemma GeneratorIsKeyed(users: seq<Tenant>, rooms: seq<Room>, readings: seq<MeterReading>)
    ensures KeyedGenerator(Generator(users, rooms, readings))
  {
  }

  /** The bills a run leaves, how many it created, and the error that ended it early, if any. */
  datatype RunOutcome = RunOutcome(bills: seq<Bill>, created: nat, aborted: Option<ChainError>)

  /** The loop of `GenerateMonthlyBillsAsync` over the due tenants. Bills
      generated before a tenant's generation throws stay stored. */
  function MonthlyRun(gen: BillGenerator, bills: seq<Bill>,
                      due: seq<Tenant>, date: Date): RunOutcome
    decreases |due|
  {
    if |due| == 0 then RunOutcome(bills, 0, None)
    else if HasBillDatedInMonth(bills, due[0].id, date) then MonthlyRun(gen, bills, due[1..], date)
    else
      match gen(due[0].id, date)
      case Err(e) => RunOutcome(bills, 0, Some(e))
      case Ok(b) =>
        var rest := MonthlyRun(gen, bills + [b], due[1..], date);
        rest.(created := rest.created + 1)
  }

  /** `GenerateMonthlyBillsAsync`: the number of bills created, or the error
      that ended the run. */
  method GenerateMonthlyBills(db: Database, billingDate: Date) returns (r: Result<nat, ChainError>)
    modifies db`bills
    ensures var run := MonthlyRun(Generator(db.users, db.rooms, db.readings), old(db.bills),
                                  DueAmong(WithRoom(db.users), db.readings, billingDate), billingDate);
            db.bills == run.bills &&
            (run.aborted.None? ==> r == Ok(run.created)) &&
            (run.aborted.Some? ==> r == Err(run.aborted.value))
  {
    var tenants := GetTenantsWithDueBills(db, billingDate);
    r := GenerateForDue(db, Generator(db.users, db.rooms, db.readings), tenants, billingDate);
  }

  /** The loop of `GenerateMonthlyBillsAsync`: for each due tenant without a
      bill dated in the month, generate and store one; the first generation
      that throws ends the loop. */
  method GenerateForDue(db: Database, gen: BillGenerator, tenants: seq<Tenant>, billingDate: Date)
    returns (r: Result<nat, ChainError>)
    modifies db`bills
    ensures var run := MonthlyRun(gen, old(db.bills), tenants, billingDate);
            db.bills == run.bills &&
            (run.aborted.None? ==> r == Ok(run.created)) &&
            (run.aborted.Some? ==> r == Err(run.aborted.value))
  {
    ghost var final := MonthlyRun(gen, db.bills, tenants, billingDate);
    var billsGenerated := 0;
    var i := 0;
    while i < |tenants|
      invariant 0 <= i <= |tenants|
      invariant var rest := MonthlyRun(gen, db.bills, tenants[i..], billingDate);
                final == rest.(created := rest.created + billsGenerated)
    {
      var tenant := tenants[i];
      assert tenants[i..][0] == tenant && tenants[i..][1..] == tenants[i + 1..];
      MonthlyRunStep(gen, db.bills, tenants[i..], billingDate);
      if !HasBillDatedInMonth(db.bills, tenant.id, billingDate) {
        var generated := gen(tenant.id, billingDate);
        if generated.Err? {
          return Err(generated.error);
        }
        db.bills := db.bills + [generated.value];
        billsGenerated := billsGenerated + 1;
      }
      i := i + 1;
    }
    assert tenants[i..] == [];
    assert final == RunOutcome(db.bills, billsGenerated, None);
    return Ok(billsGenerated);
  }

  /** Applying the service's generator is calling `BillForTenant`. */
  lemma GeneratorApplies(users: seq<Tenant>, rooms: seq<Room>, readings: seq<MeterReading>, tenantId: string,
                         billingDate: Date)
    ensures Generator(users, rooms, readings)(tenantId, billingDate) ==
            BillForTenant(users, rooms, readings, tenantId, billingDate)
  {
  }

  /** One step of the monthly run: skip a tenant already billed, stop at a
      failed generation, or store the bill and go on. */
  lemma MonthlyRunStep(gen: BillGenerator, bills: seq<Bill>, due: seq<Tenant>, date: Date)
    requires |due| > 0
    ensures HasBillDatedInMonth(bills, due[0].id, date) ==>
              MonthlyRun(gen, bills, due, date) == MonthlyRun(gen, bills, due[1..], date)
    ensures !HasBillDatedInMonth(bills, due[0].id, date) && gen(due[0].id, date).Err? ==>
              MonthlyRun(gen, bills, due, date) == RunOutcome(bills, 0, Some(gen(due[0].id, date).error))
    ensures !HasBillDatedInMonth(bills, due[0].id, date) && gen(due[0].id, date).Ok? ==>
              var rest := MonthlyRun(gen, bills + [gen(due[0].id, date).value], due[1..], date);
              MonthlyRun(gen, bills, due, date) == rest.(created := rest.created + 1)
  {
  }

  /** At most one bill per tenant and month, keyed on the billing date. */
  predicate OneBillPerTenantMonth(bills: seq<Bill>) {
    forall i, j :: 0 <= i < j < |bills| && bills[i].tenantId == bills[j].tenantId ==>
      !SameMonth(bills[i].billingDate, bills[j].billingDate)
  }

  /** A run only appends, and appends exactly as many bills as it reports. */
  lemma {:induction false} MonthlyRunAppends(gen: BillGenerator, bills: seq<Bill>, due: seq<Tenant>, date: Date)
    ensures var run := MonthlyRun(gen, bills, due, date);
            |bills| <= |run.bills| && run.bills[..|bills|] == bills &&
            (run.aborted.None? ==> |run.bills| == |bills| + run.created)
    decreases |due|
  {
    if |due| == 0 {
      return;
    }
    var run := MonthlyRun(gen, bills, due, date);
    if HasBillDatedInMonth(bills, due[0].id, date) {
      MonthlyRunAppends(gen, bills, due[1..], date);
      assert run == MonthlyRun(gen, bills, due[1..], date);
    } else {
      var g := gen(due[0].id, date);
      if g.Ok? {
        var next := bills + [g.value];
        var rest := MonthlyRun(gen, next, due[1..], date);
        MonthlyRunAppends(gen, next, due[1..], date);
        assert run == rest.(created := rest.created + 1);
        assert rest.bills[..|bills|] == rest.bills[..|next|][..|bills|];
      }
    }
  }

  /** Appending bills never removes an existing bill of a month. */
  lemma HasBillDatedInMonthGrows(bills: seq<Bill>, more: seq<Bill>, tenantId: string, d: Date)
    requires HasBillDatedInMonth(bills, tenantId, d)
    ensures HasBillDatedInMonth(bills + more, tenantId, d)
  {
    var i :| 0 <= i < |bills| && bills[i].tenantId == tenantId && SameMonth(bills[i].billingDate, d);
    assert (bills + more)[i] == bills[i];
  }

  /** After a run that was not cut short, every due tenant has a bill dated in the month. */
  lemma {:induction false} MonthlyRunCovers(gen: BillGenerator, bills: seq<Bill>, due: seq<Tenant>, date: Date)
    requires KeyedGenerator(gen)
    requires MonthlyRun(gen, bills, due, date).aborted.None?
    ensures forall t :: t in due ==> HasBillDatedInMonth(MonthlyRun(gen, bills, due, date).bills, t.id, date)
    decreases |due|
  {
    if |due| > 0 {
      var run := MonthlyRun(gen, bills, due, date);
      var next := bills;
      if !HasBillDatedInMonth(bills, due[0].id, date) {
        var b := gen(due[0].id, date).value;
        next := bills + [b];
        assert next[|bills|] == b;
      }
      assert HasBillDatedInMonth(next, due[0].id, date);
      MonthlyRunCovers(gen, next, due[1..], date);
      MonthlyRunAppends(gen, next, due[1..], date);
      assert run.bills == next + run.bills[|next|..];
      HasBillDatedInMonthGrows(next, run.bills[|next|..], due[0].id, date);
      forall t | t in due ensures HasBillDatedInMonth(run.bills, t.id, date) {
        if t != due[0] {
          assert t in due[1..];
        }
      }
    }
  }

  /** A run over tenants who all have a bill in the month creates nothing. */
  lemma {:induction false} MonthlyRunOverCoveredIsNoop(gen: BillGenerator, bills: seq<Bill>,
                                                       due: seq<Tenant>, date: Date)
    requires forall t :: t in due ==> HasBillDatedInMonth(bills, t.id, date)
    ensures MonthlyRun(gen, bills, due, date) == RunOutcome(bills, 0, None)
    decreases |due|
  {
    if |due| > 0 {
      assert due[0] in due;
      MonthlyRunOverCoveredIsNoop(gen, bills, due[1..], date);
    }
  }

  /** Running the monthly generation again on the same date creates no bill:
      the due tenants do not depend on the bills, and each already has one. */
  lemma MonthlyRunRerunCreatesNothing(gen: BillGenerator, users: seq<Tenant>, readings: seq<MeterReading>,
                                      bills: seq<Bill>, date: Date)
    requires KeyedGenerator(gen)
    requires MonthlyRun(gen, bills, DueAmong(WithRoom(users), readings, date), date).aborted.None?
    ensures var due := DueAmong(WithRoom(users), readings, date);
            var first := MonthlyRun(gen, bills, due, date);
            MonthlyRun(gen, first.bills, due, date) == RunOutcome(first.bills, 0, None)
  {
    var due := DueAmong(WithRoom(users), readings, date);
    MonthlyRunCovers(gen, bills, due, date);
    MonthlyRunOverCoveredIsNoop(gen, MonthlyRun(gen, bills, due, date).bills, due, date);
  }

  /** The monthly run never produces a second bill for a tenant and month. */
  lemma {:induction false} MonthlyRunKeepsOneBillPerTenantMonth(gen: BillGenerator, bills: seq<Bill>,
                                                                due: seq<Tenant>, date: Date)
    requires KeyedGenerator(gen)
    requires OneBillPerTenantMonth(bills)
    ensures OneBillPerTenantMonth(MonthlyRun(gen, bills, due, date).bills)
    decreases |due|
  {
    if |due| > 0 {
      if HasBillDatedInMonth(bills, due[0].id, date) {
        MonthlyRunKeepsOneBillPerTenantMonth(gen, bills, due[1..], date);
      } else {
        var g := gen(due[0].id, date);
        if g.Ok? {
          var next := bills + [g.value];
          forall i, j | 0 <= i < j < |next| && next[i].tenantId == next[j].tenantId
            ensures !SameMonth(next[i].billingDate, next[j].billingDate)
          {
            if j == |bills| {
              assert next[j] == g.value && next[i] == bills[i];
            } else {
              assert next[i] == bills[i] && next[j] == bills[j];
            }
          }
          MonthlyRunKeepsOneBillPerTenantMonth(gen, next, due[1..], date);
        }
      }
    }
  }

  // ---------------------------------------------------------------------------
  // Initial bill and in-person payment

  /** `GenerateInitialBillForTenantAsync`: inserts the tenant's start-month bill,
      or throws without inserting anything. */
  method GenerateInitialBillForTenant(db: Database, tenantId: string, stamp: string) returns (r: Result<Bill, ChainError>)
    modifies db`bills
    ensures r == InitialBillForTenant(db.users, db.rooms, tenantId, stamp)
    ensures r.Ok? ==> db.bills == old(db.bills) + [r.value]
    ensures r.Err? ==> db.bills == old(db.bills)
  {
    r := InitialBillForTenant(db.users, db.rooms, tenantId, stamp);
    if r.Ok? {
      db.bills := db.bills + [r.value];
    }
  }

  /** `ProcessPaymentAsync`: false for an unknown bill; otherwise the bill is
      paid and one ledger entry records the in-person payment. */
  method ProcessPayment(db: Database, billId: int, amount: real, reference: string, now: Date) returns (ok: bool)
    modifies db`bills, db`payments
    ensures ok <==> 0 <= billId < |old(db.bills)|
    ensures ok ==> db.bills == old(db.bills)[billId := ProcessedBill(old(db.bills)[billId], amount, reference, now)]
    ensures ok ==> db.payments == old(db.payments) +
                                  [Payment(billId, None, amount, now, InPersonMethod, Some(reference), None)]
    ensures !ok ==> db.bills == old(db.bills) && db.payments == old(db.payments)
  {
    var bill := FindBill(db.bills, billId);
    if bill.None? {
      return false;
    }
    db.bills := db.bills[billId := ProcessedBill(bill.value, amount, reference, now)];
    db.payments := db.payments + [Payment(billId, None, amount, now, InPersonMethod, Some(reference), None)];
    return true;
  }

  // ---------------------------------------------------------------------------
  // Overdue sweep

  /** Every bill after the sweep of `UpdateBillStatusesAsync`. */
  function SweepAll(bills: seq<Bill>, rooms: seq<Room>, today: Date): (r: seq<Bill>)
    ensures |r| == |bills|
    ensures forall i :: 0 <= i < |bills| ==> r[i] == SweepBill(bills[i], BillBuilding(rooms, bills[i]), today)
  {
    seq(|bills|, i requires 0 <= i < |bills| => SweepBill(bills[i], BillBuilding(rooms, bills[i]), today))
  }

  /** `UpdateBillStatusesAsync`. */
  method UpdateBillStatuses(db: Database, today: Date)
    modifies db`bills
    ensures db.bills == SweepAll(old(db.bills), db.rooms, today)
  {
    var i := 0;
    while i < |db.bills|
      invariant 0 <= i <= |db.bills| && |db.bills| == |old(db.bills)|
      invariant forall k :: 0 <= k < i ==>
                  db.bills[k] == SweepBill(old(db.bills)[k], BillBuilding(db.rooms, old(db.bills)[k]), today)
      invariant forall k :: i <= k < |db.bills| ==> db.bills[k] == old(db.bills)[k]
    {
      var bill := db.bills[i];
      if IsPastDueOpen(bill, today) {
        db.bills := db.bills[i := SweepBill(bill, BillBuilding(db.rooms, bill), today)];
      }
      i := i + 1;
    }
  }

  /** After the sweep no bill is unpaid or pending past its due date, no
      non-zero late fee has changed, and sweeping again changes nothing. */
  lemma SweepAllProperties(bills: seq<Bill>, rooms: seq<Room>, today: Date)
    ensures forall i :: 0 <= i < |bills| ==> !IsPastDueOpen(SweepAll(bills, rooms, today)[i], today)
    ensures forall i :: 0 <= i < |bills| && bills[i].lateFee.Some? && bills[i].lateFee.value != 0.0 ==>
              SweepAll(bills, rooms, today)[i].lateFee == bills[i].lateFee
    ensures SweepAll(SweepAll(bills, rooms, today), rooms, today) == SweepAll(bills, rooms, today)
  {
    var once := SweepAll(bills, rooms, today);
    forall i | 0 <= i < |bills|
      ensures SweepAll(once, rooms, today)[i] == once[i]
    {
      assert once[i].roomId == bills[i].roomId;
      SweepBillIdempotent(bills[i], BillBuilding(rooms, bills[i]), today);
    }
  }

  // ---------------------------------------------------------------------------
  // Backfill

  /** Whether the tenant has a bill whose `(BillingMonth, BillingYear)` is the given month. */
  predicate HasBillForMonth(bills: seq<Bill>, tenantId: string, month: int, year: int) {
    exists i :: 0 <= i < |bills| && bills[i].tenantId == tenantId &&
      bills[i].billingMonth == month && bills[i].billingYear == year
  }

  /** The set `existingBillMonths` the backfill keeps for a tenant. */
  function BillMonths(bills: seq<Bill>, tenantId: string): (s: set<(int, int)>)
    ensures forall month, year :: (month, year) in s <==> HasBillForMonth(bills, tenantId, month, year)
  {
    set i | 0 <= i < |bills| && bills[i].tenantId == tenantId :: (bills[i].billingMonth, bills[i].billingYear)
  }

  /** The backfill of one tenant, from month `cur` through the month of `today`. */
  function BackfillTenant(gen: BillGenerator, bills: seq<Bill>,
                          t: Tenant, cur: Date, today: Date): RunOutcome
    decreases MonthOf(today) - MonthOf(cur) + 1
  {
    if !AtOrBefore(cur, today) then RunOutcome(bills, 0, None)
    else
      BeforeByMonth(today, cur);
      if HasBillForMonth(bills, t.id, cur.month, cur.year) then
        BackfillTenant(gen, bills, t, AddOneMonth(cur), today)
      else
        match gen(t.id, cur)
        case Err(e) => RunOutcome(bills, 0, Some(e))
        case Ok(b) =>
          var rest := BackfillTenant(gen, bills + [b], t, AddOneMonth(cur), today);
          rest.(created := rest.created + 1)
  }

  /** The backfill over the tenants in order, each from the first of its start month. */
  function BackfillAll(gen: BillGenerator, bills: seq<Bill>,
                       tenants: seq<Tenant>, today: Date): RunOutcome
    decreases |tenants|
  {
    if |tenants| == 0 then RunOutcome(bills, 0, None)
    else
      var t := tenants[0];
      var one := BackfillTenant(gen, bills, t,
                                FirstOfMonth(t.startDate.year, t.startDate.month), today);
      if one.aborted.Some? then one
      else
        var rest := BackfillAll(gen, one.bills, tenants[1..], today);
        rest.(created := one.created + rest.created)
  }

  /** `BackfillBillsForAllTenantsAsync`: the number of bills created, or the
      error that ended the run. */
  method BackfillBillsForAllTenants(db: Database, today: Date) returns (r: Result<nat, ChainError>)
    modifies db`bills
    ensures var run := BackfillAll(Generator(db.users, db.rooms, db.readings), old(db.bills), WithRoom(db.users), today);
            db.bills == run.bills &&
            (run.aborted.None? ==> r == Ok(run.created)) &&
            (run.aborted.Some? ==> r == Err(run.aborted.value))
  {
    var billsGenerated := 0;
    var tenants := WithRoom(db.users);
    ghost var final := BackfillAll(Generator(db.users, db.rooms, db.readings), db.bills, tenants, today);
    var i := 0;
    while i < |tenants|
      invariant 0 <= i <= |tenants|
      invariant var rest := BackfillAll(Generator(db.users, db.rooms, db.readings), db.bills, tenants[i..], today);
                rest.bills == final.bills && rest.aborted == final.aborted &&
                (final.aborted.None? ==> billsGenerated + rest.created == final.created)
    {
      var tenant := tenants[i];
      assert tenants[i..][0] == tenant && tenants[i..][1..] == tenants[i + 1..];
      var startDate := tenant.startDate;
      var currentDate := FirstOfMonth(startDate.year, startDate.month);
      ghost var one := BackfillTenant(Generator(db.users, db.rooms, db.readings), db.bills, tenant, currentDate, today);
      ghost var countBefore := billsGenerated;
      var existingBillMonths := BillMonths(db.bills, tenant.id);
      while AtOrBefore(currentDate, today)
        invariant currentDate.day == 1
        invariant existingBillMonths == BillMonths(db.bills, tenant.id)
        invariant var rest := BackfillTenant(Generator(db.users, db.rooms, db.readings), db.bills, tenant, currentDate, today);
                  rest.bills == one.bills && rest.aborted == one.aborted &&
                  (one.aborted.None? ==> billsGenerated - countBefore + rest.created == one.created)
        decreases MonthOf(today) - MonthOf(currentDate) + 1
      {
        BeforeByMonth(today, currentDate);
        if (currentDate.month, currentDate.year) !in existingBillMonths {
          var generated := GenerateBillForTenant(db, tenant.id, currentDate);
          if generated.Err? {
            return Err(generated.error);
          }
          billsGenerated := billsGenerated + 1;
          existingBillMonths := BillMonths(db.bills, tenant.id);
        }
        currentDate := AddOneMonth(currentDate);
      }
      i := i + 1;
    }
    assert tenants[i..] == [];
    assert final == RunOutcome(db.bills, billsGenerated, None);
    return Ok(billsGenerated);
  }

  /** The tenant has a bill for every month from the month of `cur` through the month of `today`. */
  ghost predicate CoveredThrough(bills: seq<Bill>, tenantId: string, cur: Date, today: Date) {
    forall d: Date :: MonthOf(cur) <= MonthOf(d) <= MonthOf(today) ==> HasBillForMonth(bills, tenantId, d.month, d.year)
  }

  /** Appending bills never removes an existing bill of a month. */
  lemma HasBillForMonthGrows(bills: seq<Bill>, more: seq<Bill>, tenantId: string, month: int, year: int)
    requires HasBillForMonth(bills, tenantId, month, year)
    ensures HasBillForMonth(bills + more, tenantId, month, year)
  {
    var i :| 0 <= i < |bills| && bills[i].tenantId == tenantId &&
             bills[i].billingMonth == month && bills[i].billingYear == year;
    assert (bills + more)[i] == bills[i];
  }

  lemma CoveredThroughGrows(bills: seq<Bill>, more: seq<Bill>, tenantId: string, cur: Date, today: Date)
    requires CoveredThrough(bills, tenantId, cur, today)
    ensures CoveredThrough(bills + more, tenantId, cur, today)
  {
    forall d: Date | MonthOf(cur) <= MonthOf(d) <= MonthOf(today)
      ensures HasBillForMonth(bills + more, tenantId, d.month, d.year)
    {
      HasBillForMonthGrows(bills, more, tenantId, d.month, d.year);
    }
  }

  /** A tenant's backfill only appends, and appends exactly as many bills as it reports. */
  lemma {:induction false} BackfillTenantAppends(gen: BillGenerator, bills: seq<Bill>, t: Tenant, cur: Date, today: Date)
    ensures var run := BackfillTenant(gen, bills, t, cur, today);
            |bills| <= |run.bills| && run.bills[..|bills|] == bills &&
            (run.aborted.None? ==> |run.bills| == |bills| + run.created)
    decreases MonthOf(today) - MonthOf(cur) + 1
  {
    if AtOrBefore(cur, today) {
      BeforeByMonth(today, cur);
      if HasBillForMonth(bills, t.id, cur.month, cur.year) {
        BackfillTenantAppends(gen, bills, t, AddOneMonth(cur), today);
      } else {
        var g := gen(t.id, cur);
        if g.Ok? {
          BackfillTenantAppends(gen, bills + [g.value], t, AddOneMonth(cur), today);
          var run := BackfillTenant(gen, bills + [g.value], t, AddOneMonth(cur), today);
          assert run.bills[..|bills|] == run.bills[..|bills| + 1][..|bills|];
        }
      }
    }
  }

  /** After a tenant's backfill that was not cut short, every month from `cur`
      through the month of `today` has a bill of the tenant. */
  lemma {:induction false} BackfillTenantCovers(gen: BillGenerator, bills: seq<Bill>, t: Tenant, cur: Date, today: Date)
    requires KeyedGenerator(gen)
    requires cur.day == 1
    requires BackfillTenant(gen, bills, t, cur, today).aborted.None?
    ensures CoveredThrough(BackfillTenant(gen, bills, t, cur, today).bills, t.id, cur, today)
    decreases MonthOf(today) - MonthOf(cur) + 1
  {
    var run := BackfillTenant(gen, bills, t, cur, today);
    BeforeByMonth(today, cur);
    if AtOrBefore(cur, today) {
      var next := bills;
      if !HasBillForMonth(bills, t.id, cur.month, cur.year) {
        var b := gen(t.id, cur).value;
        next := bills + [b];
        assert next[|bills|] == b;
      }
      assert HasBillForMonth(next, t.id, cur.month, cur.year);
      var nextMonth := AddOneMonth(cur);
      BackfillTenantCovers(gen, next, t, nextMonth, today);
      BackfillTenantAppends(gen, next, t, nextMonth, today);
      assert run.bills == next + run.bills[|next|..];
      HasBillForMonthGrows(next, run.bills[|next|..], t.id, cur.month, cur.year);
      CoveredThroughExtends(run.bills, t.id, cur, today);
    }
  }

  /** Coverage from the next month on, plus a bill for this month, is coverage from this month on. */
  lemma CoveredThroughExtends(bills: seq<Bill>, tenantId: string, cur: Date, today: Date)
    requires HasBillForMonth(bills, tenantId, cur.month, cur.year)
    requires CoveredThrough(bills, tenantId, AddOneMonth(cur), today)
    ensures CoveredThrough(bills, tenantId, cur, today)
  {
    forall d: Date | MonthOf(cur) <= MonthOf(d) <= MonthOf(today)
      ensures HasBillForMonth(bills, tenantId, d.month, d.year)
    {
      if MonthOf(d) == MonthOf(cur) {
        MonthIndexInjective(d.year, d.month, cur.year, cur.month);
      }
    }
  }

  /** A tenant's backfill over months that all have a bill creates nothing. */
  lemma {:induction false} BackfillTenantOverCoveredIsNoop(gen: BillGenerator, bills: seq<Bill>,
                                                           t: Tenant, cur: Date, today: Date)
    requires CoveredThrough(bills, t.id, cur, today)
    ensures BackfillTenant(gen, bills, t, cur, today) == RunOutcome(bills, 0, None)
    decreases MonthOf(today) - MonthOf(cur) + 1
  {
    if AtOrBefore(cur, today) {
      BeforeByMonth(today, cur);
      assert HasBillForMonth(bills, t.id, cur.month, cur.year);
      BackfillTenantOverCoveredIsNoop(gen, bills, t, AddOneMonth(cur), today);
    }
  }

  /** The months each tenant's backfill starts from. */
  function StartMonth(t: Tenant): Date {
    FirstOfMonth(t.startDate.year, t.startDate.month)
  }

  /** After a backfill that was not cut short, every listed tenant has a bill
      for every month from its start month through the month of `today`. */
  lemma {:induction false} BackfillAllCovers(gen: BillGenerator, bills: seq<Bill>, tenants: seq<Tenant>, today: Date)
    requires KeyedGenerator(gen)
    requires BackfillAll(gen, bills, tenants, today).aborted.None?
    ensures var run := BackfillAll(gen, bills, tenants, today);
            |bills| <= |run.bills| && run.bills[..|bills|] == bills &&
            |run.bills| == |bills| + run.created &&
            forall t :: t in tenants ==> CoveredThrough(run.bills, t.id, StartMonth(t), today)
    decreases |tenants|
  {
    if |tenants| > 0 {
      var t := tenants[0];
      var one := BackfillTenant(gen, bills, t, StartMonth(t), today);
      BackfillTenantCovers(gen, bills, t, StartMonth(t), today);
      BackfillTenantAppends(gen, bills, t, StartMonth(t), today);
      BackfillAllCovers(gen, one.bills, tenants[1..], today);
      var run := BackfillAll(gen, bills, tenants, today);
      assert run.bills == one.bills + run.bills[|one.bills|..];
      CoveredThroughGrows(one.bills, run.bills[|one.bills|..], t.id, StartMonth(t), today);
      assert run.bills[..|bills|] == run.bills[..|one.bills|][..|bills|];
      forall u | u in tenants ensures CoveredThrough(run.bills, u.id, StartMonth(u), today) {
        if u != t {
          assert u in tenants[1..];
        }
      }
    }
  }

  /** A backfill over tenants whose months are all billed creates nothing. */
  lemma {:induction false} BackfillAllOverCoveredIsNoop(gen: BillGenerator, bills: seq<Bill>,
                                                        tenants: seq<Tenant>, today: Date)
    requires forall t :: t in tenants ==> CoveredThrough(bills, t.id, StartMonth(t), today)
    ensures BackfillAll(gen, bills, tenants, today) == RunOutcome(bills, 0, None)
    decreases |tenants|
  {
    if |tenants| > 0 {
      assert tenants[0] in tenants;
      BackfillTenantOverCoveredIsNoop(gen, bills, tenants[0], StartMonth(tenants[0]), today);
      BackfillAllOverCoveredIsNoop(gen, bills, tenants[1..], today);
    }
  }

  /** Backfilling twice on the same day: the second run creates nothing. */
  lemma BackfillRerunCreatesNothing(gen: BillGenerator, users: seq<Tenant>, bills: seq<Bill>, today: Date)
    requires KeyedGenerator(gen)
    requires BackfillAll(gen, bills, WithRoom(users), today).aborted.None?
    ensures var first := BackfillAll(gen, bills, WithRoom(users), today);
            BackfillAll(gen, first.bills, WithRoom(users), today) == RunOutcome(first.bills, 0, None)
  {
    BackfillAllCovers(gen, bills, WithRoom(users), today);
    BackfillAllOverCoveredIsNoop(gen, BackfillAll(gen, bills, WithRoom(users), today).bills,
                                 WithRoom(users), today);
  }
}
