/** The bill record: its six-state status, its stored fields and the totals
    derived from them on every read; also the payment ledger entry. */
module BillModel {
  import opened Wrappers
  import opened Calendar

  /** The lifecycle states, in the order the enumeration declares them. */
  datatype BillStatus = NotPaid | Pending | Paid | Overdue | Cancelled | WrittenOff

  /** One monthly charge for one tenant. Money is exact; `None` is a null column. */
  datatype Bill = Bill(
    tenantId: string,
    roomId: int,
    billingDate: Date,
    billingMonth: int,
    billingYear: int,
    dueDate: Date,
    monthlyRent: real,
    waterFee: real,
    electricityFee: real,
    wifiFee: real,
    lateFee: Option<real>,
    otherFees: Option<real>,
    otherFeesDescription: Option<string>,
    status: BillStatus,
    isApproved: bool,
    paymentDate: Option<Date>,
    amountPaid: Option<real>,
    paymentReference: Option<string>,
    notes: Option<string>,
    paymentMethod: Option<string>)

  /** An entry of the payment ledger; `billId` is the bill's position in the bill table. */
  datatype Payment = Payment(
    billId: int,
    tenantId: Option<string>,
    amount: real,
    paymentDate: Date,
    paymentMethod: string,
    referenceNumber: Option<string>,
    notes: Option<string>)

  /** `x ?? 0`. */
  function OrZero(x: Option<real>): real {
    x.GetOr(0.0)
  }

  /** The four recurring charges, without late fee and other fees. */
  function Subtotal(b: Bill): real {
    b.monthlyRent + b.waterFee + b.electricityFee + b.wifiFee
  }

  /** The derived total: never stored, always recomputed from the stored fields. */
  function TotalAmount(b: Bill): real {
    b.monthlyRent + b.waterFee + b.electricityFee + b.wifiFee + OrZero(b.lateFee) + OrZero(b.otherFees)
  }

  /** The `Amount` alias the views and the tenant payment use. */
  function Amount(b: Bill): (r: real)
    ensures r == TotalAmount(b)
    ensures r == Subtotal(b) + OrZero(b.lateFee) + OtherCharges(b)
  {
    TotalAmount(b)
  }

  /** The `OtherCharges` alias: the other fees, with a null read as zero. */
  function OtherCharges(b: Bill): (r: real)
    ensures b.otherFees.None? ==> r == 0.0
    ensures b.otherFees.Some? ==> r == b.otherFees.value
  {
    OrZero(b.otherFees)
  }

  /** A bill as an object initializer creates it: the given fields, and the
      defaults of every other one (unapproved, no late fee, nothing paid). */
  function NewBill(tenantId: string, roomId: int, billingDate: Date, billingMonth: int,
                   billingYear: int, dueDate: Date, monthlyRent: real, waterFee: real,
                   electricityFee: real, wifiFee: real, status: BillStatus,
                   notes: Option<string>): (b: Bill)
    ensures !b.isApproved
    ensures b.lateFee.None? && b.otherFees.None? && b.amountPaid.None?
    ensures b.paymentDate.None? && b.paymentReference.None? && b.paymentMethod.None?
    ensures b.status == status && b.notes == notes
    ensures b.tenantId == tenantId && b.roomId == roomId && b.billingDate == billingDate
    ensures b.billingMonth == billingMonth && b.billingYear == billingYear && b.dueDate == dueDate
    ensures TotalAmount(b) == monthlyRent + waterFee + electricityFee + wifiFee
  {
    Bill(tenantId, roomId, billingDate, billingMonth, billingYear, dueDate,
         monthlyRent, waterFee, electricityFee, wifiFee, None, None, None,
         status, false, None, None, None, notes, None)
  }

  /** The total is the sum of its six money fields: two bills that agree on
      them have the same total, whatever their status or payment fields. */
  lemma TotalDependsOnlyOnCharges(a: Bill, b: Bill)
    requires a.monthlyRent == b.monthlyRent && a.waterFee == b.waterFee
    requires a.electricityFee == b.electricityFee && a.wifiFee == b.wifiFee
    requires OrZero(a.lateFee) == OrZero(b.lateFee) && OrZero(a.otherFees) == OrZero(b.otherFees)
    ensures TotalAmount(a) == TotalAmount(b)
  {
  }

  /** Editing one component moves the total by exactly the change in that component. */
  lemma TotalTracksComponentEdits(b: Bill, rent: real, water: real, electricity: real, wifi: real)
    ensures TotalAmount(b.(monthlyRent := rent, waterFee := water, electricityFee := electricity, wifiFee := wifi))
         == TotalAmount(b) + (rent - b.monthlyRent) + (water - b.waterFee)
            + (electricity - b.electricityFee) + (wifi - b.wifiFee)
  {
  }

  /** Setting an unset or zero late fee to `x` raises the total by exactly `x`. */
  lemma SettingLateFeeRaisesTotal(b: Bill, x: real)
    requires b.lateFee.None? || b.lateFee == Some(0.0)
    ensures TotalAmount(b.(lateFee := Some(x))) == TotalAmount(b) + x
  {
  }
}
