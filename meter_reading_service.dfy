/** The meter-reading queries and the recording of a new reading. A query
    over the readings table is a function of the table's contents; the order
    the database returns equal-dated readings in is taken to be the stored order. */
module MeterReadingService {
  import opened Wrappers
  import opened Calendar
  import opened Entities
  import opened MeterModel
  import opened Store

  /** `m.TenantId == tenantId && m.ReadingDate >= start && m.ReadingDate <= end`. */
  predicate InPeriod(m: MeterReading, tenantId: string, start: Date, end: Date) {
    m.tenantId == tenantId && AtOrBefore(start, m.readingDate) && AtOrBefore(m.readingDate, end)
  }

  /** The tenant's readings, in stored order. */
  function TenantReadings(readings: seq<MeterReading>, tenantId: string): (rs: seq<MeterReading>)
    ensures forall m :: m in rs <==> m in readings && m.tenantId == tenantId
  {
    if |readings| == 0 then []
    else
      var last := readings[|readings| - 1];
      TenantReadings(readings[..|readings| - 1], tenantId) + (if last.tenantId == tenantId then [last] else [])
  }

  /** The tenant's readings dated within `[start, end]`, in stored order. Every
      such reading occurs as often as it is stored, and no other reading occurs. */
  function PeriodReadings(readings: seq<MeterReading>, tenantId: string, start: Date, end: Date): (rs: seq<MeterReading>)
    ensures forall m :: multiset(rs)[m] == if InPeriod(m, tenantId, start, end) then multiset(readings)[m] else 0
    ensures forall m :: m in rs <==> m in readings && InPeriod(m, tenantId, start, end)
  {
    if |readings| == 0 then []
    else
      var init := readings[..|readings| - 1];
      var last := readings[|readings| - 1];
      assert readings == init + [last];
      PeriodReadings(init, tenantId, start, end) + (if InPeriod(last, tenantId, start, end) then [last] else [])
  }

  /** The readings of the tenant in the calendar month of `d`. */
  function MonthReadings(readings: seq<MeterReading>, tenantId: string, d: Date): (rs: seq<MeterReading>)
    ensures forall m :: m in rs <==> m in readings && m.tenantId == tenantId && SameMonth(m.readingDate, d)
  {
    PeriodReadings(readings, tenantId, FirstOfMonth(d.year, d.month), LastOfMonth(d.year, d.month))
  }

  /** Ascending by reading date. */
  predicate SortedByDate(s: seq<MeterReading>) {
    forall i, j :: 0 <= i < j < |s| ==> AtOrBefore(s[i].readingDate, s[j].readingDate)
  }

  lemma SortedCons(h: MeterReading, t: seq<MeterReading>)
    requires SortedByDate(t)
    requires forall m :: m in t ==> AtOrBefore(h.readingDate, m.readingDate)
    ensures SortedByDate([h] + t)
  {
    var r := [h] + t;
    forall i, j | 0 <= i < j < |r| ensures AtOrBefore(r[i].readingDate, r[j].readingDate) {
      if i == 0 {
        assert r[j] == t[j - 1];
        assert r[j] in t;
      } else {
        assert r[i] == t[i - 1] && r[j] == t[j - 1];
      }
    }
  }

  /** Places `x` in a date-sorted sequence. */
  function InsertByDate(x: MeterReading, s: seq<MeterReading>): (r: seq<MeterReading>)
    requires SortedByDate(s)
    ensures SortedByDate(r)
    ensures multiset(r) == multiset(s) + multiset{x}
    ensures |r| == |s| + 1
  {
    if |s| == 0 then [x]
    else if AtOrBefore(x.readingDate, s[0].readingDate) then [x] + s
    else
      var tail := InsertByDate(x, s[1..]);
      assert s == [s[0]] + s[1..];
      assert forall m :: m in tail ==> AtOrBefore(s[0].readingDate, m.readingDate) by {
        forall m | m in tail ensures AtOrBefore(s[0].readingDate, m.readingDate) {
          assert m in multiset(tail);
          if m != x {
            assert m in multiset(s[1..]);
            var k :| 0 <= k < |s[1..]| && s[1..][k] == m;
            assert s[k + 1] == m;
          }
        }
      }
      SortedCons(s[0], tail);
      [s[0]] + tail
  }

  /** `OrderBy(m => m.ReadingDate)`: sorted, and a permutation of its input. */
  function SortByDate(s: seq<MeterReading>): (r: seq<MeterReading>)
    ensures SortedByDate(r)
    ensures multiset(r) == multiset(s)
    ensures |r| == |s|
  {
    if |s| == 0 then []
    else
      assert s == s[..|s| - 1] + [s[|s| - 1]];
      InsertByDate(s[|s| - 1], SortByDate(s[..|s| - 1]))
  }

  /** The reading with the latest date; among readings of that date, the one stored last. */
  function Latest(rs: seq<MeterReading>): (r: Option<MeterReading>)
    ensures r.None? <==> |rs| == 0
    ensures r.Some? ==> r.value in rs
    ensures r.Some? ==> forall m :: m in rs ==> AtOrBefore(m.readingDate, r.value.readingDate)
  {
    if |rs| == 0 then None
    else
      var init := rs[..|rs| - 1];
      var last := rs[|rs| - 1];
      assert rs == init + [last];
      var p := Latest(init);
      if p.None? || AtOrBefore(p.value.readingDate, last.readingDate) then Some(last) else p
  }

  /** `GetLatestReadingAsync`: the tenant's reading with the latest date, or none. */
  function GetLatestReading(readings: seq<MeterReading>, tenantId: string): (r: Option<MeterReading>)
    ensures r.None? <==> forall m :: m in readings ==> m.tenantId != tenantId
    ensures r.Some? ==> r.value in readings && r.value.tenantId == tenantId
    ensures r.Some? ==> forall m :: m in readings && m.tenantId == tenantId ==>
                          AtOrBefore(m.readingDate, r.value.readingDate)
  {
    var rs := TenantReadings(readings, tenantId);
    assert forall m :: m in readings && m.tenantId == tenantId ==> m in rs;
    Latest(rs)
  }

  /** `GetReadingsForPeriodAsync`: the tenant's readings within `[start, end]`,
      each as often as it is stored, ascending by date. */
  function GetReadingsForPeriod(readings: seq<MeterReading>, tenantId: string, start: Date, end: Date)
    : (rs: seq<MeterReading>)
    ensures SortedByDate(rs)
    ensures forall m :: multiset(rs)[m] == if InPeriod(m, tenantId, start, end) then multiset(readings)[m] else 0
  {
    SortByDate(PeriodReadings(readings, tenantId, start, end))
  }

  /** `CalculateElectricityChargeAsync`: the charge of the tenant's latest
      reading in the billing month, or zero when the month has none. */
  function CalculateElectricityCharge(readings: seq<MeterReading>, tenantId: string, billingDate: Date): (c: real)
    ensures (forall m :: m in readings && m.tenantId == tenantId ==> !SameMonth(m.readingDate, billingDate)) ==> c == 0.0
    ensures (exists m :: m in readings && m.tenantId == tenantId && SameMonth(m.readingDate, billingDate)) ==>
              exists m :: m in readings && m.tenantId == tenantId && SameMonth(m.readingDate, billingDate) &&
                c == TotalCharge(m) &&
                forall m' :: m' in readings && m'.tenantId == tenantId && SameMonth(m'.readingDate, billingDate) ==>
                  AtOrBefore(m'.readingDate, m.readingDate)
  {
    var latest := Latest(MonthReadings(readings, tenantId, billingDate));
    if latest.None? then 0.0 else TotalCharge(latest.value)
  }

  /** Whether the tenant has a reading dated in the month of `d`. */
  predicate HasReadingInMonth(readings: seq<MeterReading>, tenantId: string, d: Date) {
    exists m :: m in readings && m.tenantId == tenantId && SameMonth(m.readingDate, d)
  }

  /** The users whose id is in `ids`, in stored order. */
  function UsersWithIds(users: seq<Tenant>, ids: set<string>): (us: seq<Tenant>)
    ensures forall u :: u in us <==> u in users && u.id in ids
  {
    if |users| == 0 then []
    else
      var last := users[|users| - 1];
      UsersWithIds(users[..|users| - 1], ids) + (if last.id in ids then [last] else [])
  }

  /** `GetTenantsWithCompletedReadingsAsync`: the accounts that have a reading
      in the month of `currentDate`. */
  function GetTenantsWithCompletedReadings(users: seq<Tenant>, readings: seq<MeterReading>, currentDate: Date)
    : (us: seq<Tenant>)
    ensures forall u :: u in us <==> u in users && HasReadingInMonth(readings, u.id, currentDate)
  {
    var ids := set m | m in readings && InMonthWindow(m.readingDate, currentDate.year, currentDate.month) :: m.tenantId;
    UsersWithIds(users, ids)
  }

  /** `HasCompletedReadingForBillingPeriodAsync`; `failed` says the query threw,
      which is reported as "no reading". */
  predicate HasCompletedReadingForBillingPeriod(readings: seq<MeterReading>, tenantId: string, billingDate: Date,
                                                failed: bool)
  {
    !failed && |MonthReadings(readings, tenantId, billingDate)| > 0
  }

  lemma HasCompletedReadingMeansReadingInMonth(readings: seq<MeterReading>, tenantId: string, billingDate: Date,
                                               failed: bool)
    ensures HasCompletedReadingForBillingPeriod(readings, tenantId, billingDate, failed) <==>
              !failed && HasReadingInMonth(readings, tenantId, billingDate)
  {
    var rs := MonthReadings(readings, tenantId, billingDate);
    if HasReadingInMonth(readings, tenantId, billingDate) {
      var m :| m in readings && m.tenantId == tenantId && SameMonth(m.readingDate, billingDate);
      assert m in rs;
    }
  }

  /** The reading `RecordReadingAsync` stores: it continues from the tenant's
      latest reading, and is priced at the room's override rate or else the
      building's default. A tenant without a complete room chain is refused. */
  function ReadingToRecord(users: seq<Tenant>, rooms: seq<Room>, readings: seq<MeterReading>, tenantId: string,
                           roomId: int, currentReading: real, readingDate: Date, notes: Option<string>)
    : (r: Result<MeterReading, ChainError>)
    ensures r.Err? <==> ResolveChain(users, rooms, tenantId).Err?
    ensures r.Ok? ==>
              var (_, room, building) := ResolveChain(users, rooms, tenantId).value;
              r.value.ratePerKwh == CustomFee(room, Electricity).GetOr(building.defaultElectricityFee)
    ensures r.Ok? ==> r.value.billId.None? && r.value.tenantId == tenantId && r.value.roomId == roomId
    ensures r.Ok? ==> r.value.readingDate == readingDate && r.value.currentReading == currentReading
    ensures r.Ok? ==> r.value.notes == notes
    ensures r.Ok? ==> (r.value.previousReading.None? <==> forall m :: m in readings ==> m.tenantId != tenantId)
    ensures r.Ok? && r.value.previousReading.Some? ==>
              exists m :: m in readings && m.tenantId == tenantId && r.value.previousReading.value == m.currentReading &&
                forall m' :: m' in readings && m'.tenantId == tenantId ==> AtOrBefore(m'.readingDate, m.readingDate)
  {
    match ResolveChain(users, rooms, tenantId)
    case Err(e) => Err(e)
    case Ok((_, room, building)) =>
      var previous := GetLatestReading(readings, tenantId);
      var rate := CustomFee(room, Electricity).GetOr(building.defaultElectricityFee);
      Ok(NewReading(tenantId, roomId, readingDate, currentReading,
                    if previous.Some? then Some(previous.value.currentReading) else None, rate, notes))
  }

  /** `RecordReadingAsync`: stores the reading, or throws and stores nothing. */
  method RecordReading(db: Database, tenantId: string, roomId: int, currentReading: real, readingDate: Date,
                       notes: Option<string>) returns (r: Result<MeterReading, ChainError>)
    modifies db`readings
    ensures r == ReadingToRecord(db.users, db.rooms, old(db.readings), tenantId, roomId, currentReading, readingDate, notes)
    ensures r.Ok? ==> db.readings == old(db.readings) + [r.value]
    ensures r.Err? ==> db.readings == old(db.readings)
  {
    r := ReadingToRecord(db.users, db.rooms, db.readings, tenantId, roomId, currentReading, readingDate, notes);
    if r.Ok? {
      db.readings := db.readings + [r.value];
    }
  }

  /** A reading dated no earlier than the tenant's others becomes the tenant's
      latest, so the next reading recorded continues from it. */
  lemma {:induction false} RecordedReadingBecomesLatest(readings: seq<MeterReading>, x: MeterReading)
    requires forall m :: m in readings && m.tenantId == x.tenantId ==> AtOrBefore(m.readingDate, x.readingDate)
    ensures GetLatestReading(readings + [x], x.tenantId) == Some(x)
  {
    var s := readings + [x];
    assert s[..|s| - 1] == readings;
    var rs := TenantReadings(readings, x.tenantId);
    assert TenantReadings(s, x.tenantId) == rs + [x];
    assert (rs + [x])[..|rs|] == rs;
    var p := Latest(rs);
    if p.Some? {
      assert p.value in rs;
    }
  }
}
