/** An electricity meter reading: the stored readings and rate, and the usage
    and charge derived from them on every read. */
module MeterModel {
  import opened Wrappers
  import opened Calendar

  /** One reading; `billId` is `None` until the reading is attached to a bill. */
  datatype MeterReading = MeterReading(
    tenantId: string,
    roomId: int,
    readingDate: Date,
    currentReading: real,
    previousReading: Option<real>,
    ratePerKwh: real,
    notes: Option<string>,
    billId: Option<int>)

  /** A reading as an object initializer creates it: not linked to any bill. */
  function NewReading(tenantId: string, roomId: int, readingDate: Date, currentReading: real,
                      previousReading: Option<real>, ratePerKwh: real, notes: Option<string>): (r: MeterReading)
    ensures r.billId.None?
    ensures r.tenantId == tenantId && r.roomId == roomId && r.readingDate == readingDate
    ensures r.currentReading == currentReading && r.previousReading == previousReading
    ensures r.ratePerKwh == ratePerKwh && r.notes == notes
  {
    MeterReading(tenantId, roomId, readingDate, currentReading, previousReading, ratePerKwh, notes, None)
  }

  /** Consumption since the previous reading; a meter that went backwards gives no credit. */
  function UsageKwh(r: MeterReading): (u: real)
    ensures u >= 0.0
    ensures r.previousReading.None? ==> u == 0.0
    ensures r.previousReading.Some? && r.currentReading >= r.previousReading.value ==>
              u == r.currentReading - r.previousReading.value
    ensures r.previousReading.Some? && r.currentReading < r.previousReading.value ==> u == 0.0
  {
    if r.previousReading.Some? then
      (if 0.0 >= r.currentReading - r.previousReading.value then 0.0
       else r.currentReading - r.previousReading.value)
    else 0.0
  }

  /** The charge for the reading: usage times the rate. */
  function TotalCharge(r: MeterReading): (c: real)
    ensures r.previousReading.None? ==> c == 0.0
    ensures r.ratePerKwh >= 0.0 ==> c >= 0.0
    ensures r.previousReading.Some? && r.currentReading <= r.previousReading.value ==> c == 0.0
    ensures r.previousReading.Some? && r.currentReading > r.previousReading.value ==>
              c == (r.currentReading - r.previousReading.value) * r.ratePerKwh
  {
    UsageKwh(r) * r.ratePerKwh
  }
}
