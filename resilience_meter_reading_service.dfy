/** The reading service the billing code is wired to: the same queries, but
    every database failure is caught and replaced by a fixed answer. Where a
    failure can happen is an explicit parameter. */
module ResilienceMeterReadingService {
  import opened Wrappers
  import opened Calendar
  import opened Entities
  import opened MeterModel
  import opened Store
  import Plain = MeterReadingService

  /** Where recording a reading failed, if it did. */
  datatype Fault =
    | NoFault
    | LoadFault           // loading the tenant threw
    | PreviousQueryFault  // looking up the previous reading threw
    | SaveFault           // saving the new reading threw

  /** The rate used when nothing about the tenant's building can be read. */
  const FallbackRatePerKwh: real := 5.00

  /** The charge used when no reading and no building rate can be found. */
  const FallbackElectricityCharge: real := 500.0

  /** The assumed monthly usage, in kWh, when a month has no reading. */
  const AssumedMonthlyKwh: real := 100.0

  /** What `RecordReadingAsync` returns, and whether the reading was stored.
      It never throws: a missing room chain or a failed load yields a reading
      at the fallback rate, a failed inner step a reading at the rate known so
      far; such readings start from a previous reading of zero and are not stored. */
  function RecordOutcome(users: seq<Tenant>, rooms: seq<Room>, readings: seq<MeterReading>, tenantId: string,
                         roomId: int, currentReading: real, readingDate: Date, notes: Option<string>, fault: Fault)
    : (r: (MeterReading, bool))
    ensures r.0.tenantId == tenantId && r.0.roomId == roomId && r.0.readingDate == readingDate
    ensures r.0.currentReading == currentReading && r.0.notes == notes && r.0.billId.None?
    // stored exactly when nothing failed and the room chain is complete; then as the plain service stores it
    ensures r.1 <==> fault.NoFault? && ResolveChain(users, rooms, tenantId).Ok?
    ensures r.1 ==> Ok(r.0) == Plain.ReadingToRecord(users, rooms, readings, tenantId, roomId, currentReading,
                                                     readingDate, notes)
    // every fallback reading starts from zero
    ensures !r.1 ==> r.0.previousReading == Some(0.0)
    ensures !r.1 && (fault.LoadFault? || ResolveChain(users, rooms, tenantId).Err?) ==>
              r.0.ratePerKwh == FallbackRatePerKwh
    ensures !r.1 && fault.PreviousQueryFault? && ResolveChain(users, rooms, tenantId).Ok? ==> r.0.ratePerKwh == 0.0
    ensures !r.1 && fault.SaveFault? && ResolveChain(users, rooms, tenantId).Ok? ==>
              var (_, room, building) := ResolveChain(users, rooms, tenantId).value;
              r.0.ratePerKwh == CustomFee(room, Electricity).GetOr(building.defaultElectricityFee)
  {
    var fallback := NewReading(tenantId, roomId, readingDate, currentReading, Some(0.0), FallbackRatePerKwh, notes);
    if fault.LoadFault? then (fallback, false)
    else
      match ResolveChain(users, rooms, tenantId)
      case Err(_) => (fallback, false)
      case Ok((_, room, building)) =>
        if fault.PreviousQueryFault? then
          (NewReading(tenantId, roomId, readingDate, currentReading, Some(0.0), 0.0, notes), false)
        else
          var rate := CustomFee(room, Electricity).GetOr(building.defaultElectricityFee);
          if fault.SaveFault? then
            (NewReading(tenantId, roomId, readingDate, currentReading, Some(0.0), rate, notes), false)
          else
            var previous := Plain.GetLatestReading(readings, tenantId);
            (NewReading(tenantId, roomId, readingDate, currentReading,
                        if previous.Some? then Some(previous.value.currentReading) else None, rate, notes), true)
  }

  /** `RecordReadingAsync`: stores the reading only when nothing failed. */
  method RecordReading(db: Database, tenantId: string, roomId: int, currentReading: real, readingDate: Date,
                       notes: Option<string>, fault: Fault) returns (reading: MeterReading)
    modifies db`readings
    ensures var (r, saved) := RecordOutcome(db.users, db.rooms, old(db.readings), tenantId, roomId, currentReading,
                                            readingDate, notes, fault);
            reading == r && db.readings == old(db.readings) + (if saved then [r] else [])
  {
    var outcome := RecordOutcome(db.users, db.rooms, db.readings, tenantId, roomId, currentReading,
                                 readingDate, notes, fault);
    reading := outcome.0;
    if outcome.1 {
      db.readings := db.readings + [reading];
    }
  }

  /** `GetLatestReadingAsync`: none when the query failed. */
  function GetLatestReading(readings: seq<MeterReading>, tenantId: string, failed: bool): (r: Option<MeterReading>)
    ensures failed ==> r.None?
    ensures !failed ==> r == Plain.GetLatestReading(readings, tenantId)
  {
    if failed then None else Plain.GetLatestReading(readings, tenantId)
  }

  /** `GetReadingsForPeriodAsync`: empty when the query failed. */
  function GetReadingsForPeriod(readings: seq<MeterReading>, tenantId: string, start: Date, end: Date, failed: bool)
    : (rs: seq<MeterReading>)
    ensures Plain.SortedByDate(rs)
    ensures failed ==> rs == []
    ensures !failed ==> forall m :: multiset(rs)[m] ==
                          if Plain.InPeriod(m, tenantId, start, end) then multiset(readings)[m] else 0
  {
    if failed then [] else Plain.GetReadingsForPeriod(readings, tenantId, start, end)
  }

  /** `CalculateElectricityChargeAsync`: the latest reading's charge in the
      billing month; with no reading there, 100 kWh at the building's default
      rate, or 500 when the building cannot be reached; 500 on any failure. */
  function CalculateElectricityCharge(users: seq<Tenant>, rooms: seq<Room>, readings: seq<MeterReading>,
                                      tenantId: string, billingDate: Date, failed: bool): (c: real)
    ensures failed ==> c == FallbackElectricityCharge
    ensures !failed && Plain.HasReadingInMonth(readings, tenantId, billingDate) ==>
              c == Plain.CalculateElectricityCharge(readings, tenantId, billingDate)
    ensures !failed && !Plain.HasReadingInMonth(readings, tenantId, billingDate) ==>
              var t := FindUser(users, tenantId);
              var room := if t.Some? then CurrentRoom(rooms, t.value) else None;
              c == if room.Some? && RoomBuilding(room.value).Some?
                   then RoomBuilding(room.value).value.defaultElectricityFee * AssumedMonthlyKwh
                   else FallbackElectricityCharge
  {
    if failed then FallbackElectricityCharge
    else
      var latest := Plain.Latest(Plain.MonthReadings(readings, tenantId, billingDate));
      if latest.Some? then
        assert latest.value in Plain.MonthReadings(readings, tenantId, billingDate);
        TotalCharge(latest.value)
      else
        var t := FindUser(users, tenantId);
        var room := if t.Some? then CurrentRoom(rooms, t.value) else None;
        if room.Some? && RoomBuilding(room.value).Some?
        then RoomBuilding(room.value).value.defaultElectricityFee * AssumedMonthlyKwh
        else FallbackElectricityCharge
  }

  /** `GetTenantsWithCompletedReadingsAsync`: no one when the query failed. */
  function GetTenantsWithCompletedReadings(users: seq<Tenant>, readings: seq<MeterReading>, currentDate: Date,
                                           failed: bool): (us: seq<Tenant>)
    ensures failed ==> us == []
    ensures !failed ==> forall u :: u in us <==> u in users && Plain.HasReadingInMonth(readings, u.id, currentDate)
  {
    if failed then [] else Plain.GetTenantsWithCompletedReadings(users, readings, currentDate)
  }

  /** `HasCompletedReadingForBillingPeriodAsync`: a failed query lets billing
      proceed, the opposite of the plain service's answer. */
  function HasCompletedReadingForBillingPeriod(readings: seq<MeterReading>, tenantId: string, billingDate: Date,
                                               failed: bool): (b: bool)
    ensures b <==> failed || Plain.HasReadingInMonth(readings, tenantId, billingDate)
    ensures failed ==> b != Plain.HasCompletedReadingForBillingPeriod(readings, tenantId, billingDate, failed)
  {
    Plain.HasCompletedReadingMeansReadingInMonth(readings, tenantId, billingDate, false);
    failed || Plain.HasCompletedReadingForBillingPeriod(readings, tenantId, billingDate, false)
  }
}
