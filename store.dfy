/** The database context the services and controllers work on. Each table is
    a sequence; a bill's or a reading's id is its position in its table, and
    rows are never deleted by the billing code. */
module Store {
  import opened Wrappers
  import opened Entities
  import opened BillModel
  import opened MeterModel

  /** The kinds of notification the billing code raises. */
  datatype NotificationType = NewBill | UpcomingDue | Overdue | PaymentConfirmed | BillModified | General

  /** A notification row: who it is for, its kind and the bill it refers to. */
  datatype Notice = Notice(userId: string, kind: NotificationType, billId: Option<int>)

  class Database {
    var users: seq<Tenant>
    var rooms: seq<Room>
    var bills: seq<Bill>
    var readings: seq<MeterReading>
    var payments: seq<Payment>
    var notices: seq<Notice>

    /** A store holding the given accounts and rooms and no billing rows yet. */
    constructor (users: seq<Tenant>, rooms: seq<Room>)
      ensures this.users == users && this.rooms == rooms
      ensures bills == [] && readings == [] && payments == [] && notices == []
    {
      this.users := users;
      this.rooms := rooms;
      bills := [];
      readings := [];
      payments := [];
      notices := [];
    }
  }

  /** `Bills.FindAsync(id)`. */
  function FindBill(bills: seq<Bill>, billId: int): (r: Option<Bill>)
    ensures r.Some? <==> 0 <= billId < |bills|
    ensures r.Some? ==> r.value == bills[billId]
  {
    if 0 <= billId < |bills| then Some(bills[billId]) else None
  }
}
