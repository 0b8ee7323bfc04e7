/** The billing rules: when a tenant's billing day falls, when a bill is due,
    how the recurring fees are resolved, what a generated bill holds, and how
    the overdue sweep treats one bill. The runs over the whole store are in
    `BillingRuns`. */
module BillingService {
  import opened Wrappers
  import opened Calendar
  import opened Entities
  import opened BillModel
  import opened MeterModel
  import Readings = MeterReadingService

  // ---------------------------------------------------------------------------
  // The billing calendar

  /** The tenant's billing day in a month: the start date's day, moved back
      to the month's last day when the month is shorter. */
  function EffectiveBillingDay(startDate: Date, year: int, month: int): (day: int)
    requires 1 <= month <= 12
    ensures 1 <= day <= DaysInMonth(year, month)
    ensures day <= startDate.day
    ensures day == startDate.day || day == DaysInMonth(year, month)
  {
    Min(startDate.day, DaysInMonth(year, month))
  }

  /** `IsBillingDayForTenant`. */
  predicate IsBillingDayForTenant(startDate: Date, currentDate: Date) {
    currentDate.day == EffectiveBillingDay(startDate, currentDate.year, currentDate.month)
  }

  /** `IsFirstBillingMonth`: the date lies in the month the tenancy started. */
  predicate IsFirstBillingMonth(startDate: Date, currentDate: Date) {
    startDate.year == currentDate.year && startDate.month == currentDate.month
  }

  /** `CalculateBillDueDate`: the tenant's anchor day in the month after the
      billing month, clamped to that month's length. */
  function CalculateBillDueDate(startDate: Date, billingDate: Date): (due: Date)
    ensures MonthOf(due) == MonthOf(billingDate) + 1
    ensures due.day == EffectiveBillingDay(startDate, due.year, due.month)
    ensures billingDate.month == 12 ==> due.year == billingDate.year + 1 && due.month == 1
    ensures billingDate.month < 12 ==> due.year == billingDate.year && due.month == billingDate.month + 1
  {
    var (y, m) := NextMonth(billingDate.year, billingDate.month);
    Ymd(y, m, EffectiveBillingDay(startDate, y, m))
  }

  /** A bill always falls due after its billing date, on a billing day of the tenant. */
  lemma DueDateIsLaterBillingDay(startDate: Date, billingDate: Date)
    ensures Before(billingDate, CalculateBillDueDate(startDate, billingDate))
    ensures IsBillingDayForTenant(startDate, CalculateBillDueDate(startDate, billingDate))
  {
    BeforeByMonth(billingDate, CalculateBillDueDate(startDate, billingDate));
  }

  /** `CalculateNextBillingDate`: the first billing day on or after `currentDate`. */
  function CalculateNextBillingDate(startDate: Date, currentDate: Date): (r: Date)
    ensures AtOrBefore(currentDate, r)
    ensures IsBillingDayForTenant(startDate, r)
    ensures MonthOf(r) == MonthOf(currentDate) || MonthOf(r) == MonthOf(currentDate) + 1
  {
    var candidate := Ymd(currentDate.year, currentDate.month,
                         EffectiveBillingDay(startDate, currentDate.year, currentDate.month));
    if Before(candidate, currentDate) then
      var (y, m) := NextMonth(currentDate.year, currentDate.month);
      var next := Ymd(y, m, EffectiveBillingDay(startDate, y, m));
      BeforeByMonth(next, currentDate);
      next
    else
      candidate
  }

  /** No billing day is skipped: none lies between `currentDate` and the next billing date. */
  lemma {:induction false} NextBillingDateIsFirst(startDate: Date, currentDate: Date, x: Date)
    requires AtOrBefore(currentDate, x)
    requires Before(x, CalculateNextBillingDate(startDate, currentDate))
    ensures !IsBillingDayForTenant(startDate, x)
  {
    var r := CalculateNextBillingDate(startDate, currentDate);
    BeforeByMonth(x, currentDate);
    BeforeByMonth(x, r);
    MonthIndexInjective(x.year, x.month, r.year, r.month);
    MonthIndexInjective(x.year, x.month, currentDate.year, currentDate.month);
  }

  /** A tenant has exactly one billing day in each month. */
  lemma BillingDayUniqueInMonth(startDate: Date, a: Date, b: Date)
    requires IsBillingDayForTenant(startDate, a) && IsBillingDayForTenant(startDate, b)
    requires SameMonth(a, b)
    ensures a == b
  {
  }

  // ---------------------------------------------------------------------------
  // Fees

  /** Where a resolved fee came from. */
  datatype FeeSource = RoomOverride | BuildingDefault | Fallback

  datatype ResolvedFee = ResolvedFee(amount: real, source: FeeSource)

  /** The generator's fee rule: a non-zero room override, else a non-zero
      building default, else the built-in fallback. A zero is treated as unset. */
  function ResolveFee(custom: Option<real>, buildingDefault: real, fallback: real): (r: ResolvedFee)
    ensures r.source == RoomOverride <==> custom.Some? && custom.value != 0.0
    ensures r.source == BuildingDefault <==> !(custom.Some? && custom.value != 0.0) && buildingDefault != 0.0
    ensures r.source == RoomOverride ==> r.amount == custom.value
    ensures r.source == BuildingDefault ==> r.amount == buildingDefault
    ensures r.source == Fallback ==> r.amount == fallback
    ensures fallback != 0.0 ==> r.amount != 0.0
  {
    if custom.Some? && custom.value != 0.0 then ResolvedFee(custom.value, RoomOverride)
    else if buildingDefault != 0.0 then ResolvedFee(buildingDefault, BuildingDefault)
    else ResolvedFee(fallback, Fallback)
  }

  const FallbackMonthlyRent: real := 5000.0
  const FallbackWaterFee: real := 300.0
  const FallbackWifiFee: real := 200.0

  /** The built-in fallback of each fee the generator resolves. */
  function FallbackFee(kind: FeeKind): real {
    match kind
    case Rent => FallbackMonthlyRent
    case Water => FallbackWaterFee
    case Electricity => 0.0
    case Wifi => FallbackWifiFee
  }

  /** The rent, water or wifi fee a generated bill carries. */
  function GeneratedFee(room: Room, building: Building, kind: FeeKind): real {
    ResolveFee(CustomFee(room, kind), DefaultFee(building, kind), FallbackFee(kind)).amount
  }

  /** The generator's zero-fee warning can never fire: each fee it resolves is non-zero. */
  lemma GeneratedFeesAreNeverZero(room: Room, building: Building)
    ensures GeneratedFee(room, building, Rent) != 0.0
    ensures GeneratedFee(room, building, Water) != 0.0
    ensures GeneratedFee(room, building, Wifi) != 0.0
  {
  }

  /** The electricity fee of a generated bill: the charge of the last of the
      month's readings by date, but only when the month has two or more readings. */
  function BillElectricityFee(readings: seq<MeterReading>, tenantId: string, billingDate: Date): (fee: real)
    ensures |Readings.MonthReadings(readings, tenantId, billingDate)| < 2 ==> fee == 0.0
    ensures |Readings.MonthReadings(readings, tenantId, billingDate)| >= 2 ==>
              exists m :: m in readings && m.tenantId == tenantId && SameMonth(m.readingDate, billingDate) &&
                fee == TotalCharge(m) &&
                forall m' :: m' in readings && m'.tenantId == tenantId && SameMonth(m'.readingDate, billingDate) ==>
                  AtOrBefore(m'.readingDate, m.readingDate)
  {
    var month := Readings.MonthReadings(readings, tenantId, billingDate);
    var sorted := Readings.SortByDate(month);
    if |sorted| >= 2 then
      var last := sorted[|sorted| - 1];
      assert last in multiset(month);
      assert forall m' :: m' in month ==> AtOrBefore(m'.readingDate, last.readingDate) by {
        forall m' | m' in month ensures AtOrBefore(m'.readingDate, last.readingDate) {
          assert m' in multiset(sorted);
          var k :| 0 <= k < |sorted| && sorted[k] == m';
          if k < |sorted| - 1 {
            assert AtOrBefore(sorted[k].readingDate, sorted[|sorted| - 1].readingDate);
          }
        }
      }
      TotalCharge(last)
    else
      0.0
  }

  // ---------------------------------------------------------------------------
  // Generated bills

  /** The bill `GenerateBillForTenantAsync` creates for a tenant whose room,
      floor and building are loaded. */
  function MonthlyBill(tenant: Tenant, room: Room, building: Building, readings: seq<MeterReading>,
                       tenantId: string, billingDate: Date): (b: Bill)
    ensures b.tenantId == tenantId && b.roomId == room.roomId
    ensures b.billingDate == billingDate
    ensures b.billingMonth == billingDate.month && b.billingYear == billingDate.year
    ensures b.dueDate == CalculateBillDueDate(tenant.startDate, billingDate)
    ensures b.monthlyRent == GeneratedFee(room, building, Rent)
    ensures b.waterFee == GeneratedFee(room, building, Water)
    ensures b.wifiFee == GeneratedFee(room, building, Wifi)
    ensures b.electricityFee == BillElectricityFee(readings, tenantId, billingDate)
    ensures b.status == NotPaid && !b.isApproved
    ensures b.lateFee.None? && b.otherFees.None? && b.amountPaid.None? && b.paymentDate.None?
    ensures b.notes.None?
  {
    NewBill(tenantId, room.roomId, billingDate, billingDate.month, billingDate.year,
            CalculateBillDueDate(tenant.startDate, billingDate),
            GeneratedFee(room, building, Rent), GeneratedFee(room, building, Water),
            BillElectricityFee(readings, tenantId, billingDate), GeneratedFee(room, building, Wifi),
            NotPaid, None)
  }

  /** `GenerateBillForTenantAsync` up to the insert: the bill, or the
      `ArgumentException` it throws for a tenant without a complete room chain. */
  function BillForTenant(users: seq<Tenant>, rooms: seq<Room>, readings: seq<MeterReading>, tenantId: string,
                         billingDate: Date): (r: Result<Bill, ChainError>)
    ensures r.Err? <==> ResolveChain(users, rooms, tenantId).Err?
    ensures r.Err? ==> r.error == ResolveChain(users, rooms, tenantId).error
    ensures r.Ok? ==> var (t, room, building) := ResolveChain(users, rooms, tenantId).value;
                      r.value == MonthlyBill(t, room, building, readings, tenantId, billingDate)
  {
    match ResolveChain(users, rooms, tenantId)
    case Err(e) => Err(e)
    case Ok((t, room, building)) => Ok(MonthlyBill(t, room, building, readings, tenantId, billingDate))
  }

  /** The bill `GenerateInitialBillForTenantAsync` creates: it covers the start
      month, is due one calendar month after the start date, and carries no
      electricity. `stamp` is the creation time as the note prints it. */
  function InitialBill(tenant: Tenant, room: Room, building: Building, tenantId: string, stamp: string): (b: Bill)
    ensures b.tenantId == tenantId && b.roomId == room.roomId
    ensures b.billingDate == FirstOfMonth(tenant.startDate.year, tenant.startDate.month)
    ensures b.billingMonth == tenant.startDate.month && b.billingYear == tenant.startDate.year
    ensures MonthOf(b.dueDate) == MonthOf(tenant.startDate) + 1
    ensures b.dueDate.day == EffectiveBillingDay(tenant.startDate, b.dueDate.year, b.dueDate.month)
    ensures b.monthlyRent == GeneratedFee(room, building, Rent)
    ensures b.waterFee == GeneratedFee(room, building, Water)
    ensures b.wifiFee == GeneratedFee(room, building, Wifi)
    ensures b.electricityFee == 0.0
    ensures b.status == NotPaid && !b.isApproved && b.lateFee.None? && b.amountPaid.None?
    ensures b.notes == Some("Initial bill generated on " + stamp)
  {
    NewBill(tenantId, room.roomId, FirstOfMonth(tenant.startDate.year, tenant.startDate.month),
            tenant.startDate.month, tenant.startDate.year, AddOneMonth(tenant.startDate),
            GeneratedFee(room, building, Rent), GeneratedFee(room, building, Water), 0.0,
            GeneratedFee(room, building, Wifi), NotPaid, Some("Initial bill generated on " + stamp))
  }

  /** The initial bill is due on the same date a monthly bill for the start
      month would be due. */
  lemma InitialBillDueMatchesMonthlyRule(tenant: Tenant, room: Room, building: Building, tenantId: string,
                                         stamp: string)
    ensures InitialBill(tenant, room, building, tenantId, stamp).dueDate ==
            CalculateBillDueDate(tenant.startDate, FirstOfMonth(tenant.startDate.year, tenant.startDate.month))
  {
    var due := InitialBill(tenant, room, building, tenantId, stamp).dueDate;
    var expected := CalculateBillDueDate(tenant.startDate, FirstOfMonth(tenant.startDate.year, tenant.startDate.month));
    MonthIndexInjective(due.year, due.month, expected.year, expected.month);
  }

  /** `GenerateInitialBillForTenantAsync` up to the insert. */
  function InitialBillForTenant(users: seq<Tenant>, rooms: seq<Room>, tenantId: string, stamp: string)
    : (r: Result<Bill, ChainError>)
    ensures r.Err? <==> ResolveChain(users, rooms, tenantId).Err?
    ensures r.Err? ==> r.error == ResolveChain(users, rooms, tenantId).error
    ensures r.Ok? ==> var (t, room, building) := ResolveChain(users, rooms, tenantId).value;
                      r.value == InitialBill(t, room, building, tenantId, stamp)
  {
    match ResolveChain(users, rooms, tenantId)
    case Err(e) => Err(e)
    case Ok((t, room, building)) => Ok(InitialBill(t, room, building, tenantId, stamp))
  }

  // ---------------------------------------------------------------------------
  // Payments and the overdue sweep, one bill at a time

  /** `ProcessPaymentAsync` on a found bill: paid at once, the amount
      replacing (not adding to) whatever was paid before. */
  function ProcessedBill(b: Bill, amount: real, reference: string, now: Date): (r: Bill)
    ensures r.status == Paid && r.paymentDate == Some(now)
    ensures r.paymentReference == Some(reference) && r.amountPaid == Some(amount)
    ensures r.(status := b.status, paymentDate := b.paymentDate, paymentReference := b.paymentReference,
               amountPaid := b.amountPaid) == b
    ensures TotalAmount(r) == TotalAmount(b)
  {
    b.(status := Paid, paymentDate := Some(now), paymentReference := Some(reference), amountPaid := Some(amount))
  }

  /** The method recorded with a `ProcessPaymentAsync` payment. */
  const InPersonMethod: string := "Cash/In-Person"

  /** Whether the sweep of `UpdateBillStatusesAsync` selects the bill. */
  predicate IsPastDueOpen(b: Bill, today: Date) {
    (b.status == NotPaid || b.status == Pending) && Before(b.dueDate, today)
  }

  /** `bill.Room?.Floor?.Building`, loaded through the bill's room id. */
  function BillBuilding(rooms: seq<Room>, b: Bill): Option<Building> {
    var room := FindRoom(rooms, b.roomId);
    if room.Some? then RoomBuilding(room.value) else None
  }

  /** One bill under the overdue sweep: an unpaid or pending bill past its
      due date becomes overdue and, when its building is known and it has no
      late fee yet, gains the building's percentage of its total as late fee. */
  function SweepBill(b: Bill, building: Option<Building>, today: Date): (r: Bill)
    // bills that are not open and past due are left as they are
    ensures !IsPastDueOpen(b, today) ==> r == b
    ensures IsPastDueOpen(b, today) ==> r.status == Overdue
    // a non-zero late fee is never overwritten, and without a building none is added
    ensures b.lateFee.Some? && b.lateFee.value != 0.0 ==> r.lateFee == b.lateFee
    ensures building.None? ==> r.lateFee == b.lateFee
    ensures IsPastDueOpen(b, today) && building.Some? && (b.lateFee.None? || b.lateFee.value == 0.0) ==>
              r.lateFee == Some(TotalAmount(b) * (building.value.lateFee / 100.0)) &&
              TotalAmount(r) == TotalAmount(b) * (1.0 + building.value.lateFee / 100.0)
    // nothing else changes
    ensures r.(status := b.status, lateFee := b.lateFee) == b
  {
    if IsPastDueOpen(b, today) then
      var overdue := b.(status := Overdue);
      if building.Some? && (b.lateFee.None? || b.lateFee.value == 0.0) then
        overdue.(lateFee := Some(TotalAmount(b) * (building.value.lateFee / 100.0)))
      else
        overdue
    else
      b
  }

  /** Sweeping twice on the same day changes nothing more than sweeping once. */
  lemma SweepBillIdempotent(b: Bill, building: Option<Building>, today: Date)
    ensures SweepBill(SweepBill(b, building, today), building, today) == SweepBill(b, building, today)
  {
  }
}
