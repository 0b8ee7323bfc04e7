/** The landlord's bill screens: the late-fee display, recorded and approved
    payments, the batch payment, linking a meter reading, approving a bill and
    the controller's own initial bill. */
module BillingController {
  import opened Wrappers
  import opened Calendar
  import opened Entities
  import opened BillModel
  import opened MeterModel
  import opened Store
  import opened BillingService

  /** Why an action was refused; every refusal leaves the store unchanged. */
  datatype ActionError =
    | BillNotFound
    | NonPositiveAmount
    | NotPending
    | NoBillsSelected
    | BillOrReadingNotFound
    | ReadingAlreadyLinked
    | ChainMissing           // tenant, room, floor or building not found
    | DayOutsideMonth        // `new DateTime(...)` throws for a day the month lacks
    | BillAlreadyLinked      // the guarded link: the bill already carries a reading

  // ---------------------------------------------------------------------------
  // Late-fee display of a bill's details page

  /** What the details page shows for an overdue bill. */
  datatype OverdueView = OverdueView(
    lateFeePercentage: real,
    adjustedRent: real,
    adjustedWaterFee: real,
    adjustedElectricityFee: real,
    adjustedWifiFee: real,
    totalLateFee: real,
    adjustedTotal: real)

  /** The overdue block of `BillDetails`: shown for an overdue bill, or an unpaid
      or pending one past its due date, when the bill's building is known. Each
      of the four charges is raised by the percentage; the late fee already
      stored on the bill is taken out of the adjusted total. */
  function OverdueDisplay(b: Bill, building: Option<Building>, today: Date): (v: Option<OverdueView>)
    ensures v.Some? <==> (b.status == BillStatus.Overdue || IsPastDueOpen(b, today)) && building.Some?
    ensures v.Some? ==> v.value.lateFeePercentage == building.value.lateFee
    ensures v.Some? ==> v.value.totalLateFee == Subtotal(b) * (building.value.lateFee / 100.0)
    ensures v.Some? ==> v.value.adjustedTotal ==
                        TotalAmount(b) + Subtotal(b) * (building.value.lateFee / 100.0) - OrZero(b.lateFee)
  {
    if (b.status == BillStatus.Overdue || IsPastDueOpen(b, today)) && building.Some? then
      var pct := building.value.lateFee;
      var factor := 1.0 + pct / 100.0;
      var rent := b.monthlyRent * factor;
      var water := b.waterFee * factor;
      var electricity := b.electricityFee * factor;
      var wifi := b.wifiFee * factor;
      var totalLateFee := (rent - b.monthlyRent) + (water - b.waterFee) +
                          (electricity - b.electricityFee) + (wifi - b.wifiFee);
      assert totalLateFee == Subtotal(b) * (pct / 100.0);
      Some(OverdueView(pct, rent, water, electricity, wifi, totalLateFee,
                       TotalAmount(b) + totalLateFee - OrZero(b.lateFee)))
    else
      None
  }

  /** `BillDetails`: the bill and, when it applies, its overdue block. */
  function BillDetails(bills: seq<Bill>, rooms: seq<Room>, billId: int, today: Date)
    : (r: Result<(Bill, Option<OverdueView>), ActionError>)
    ensures r.Err? <==> !(0 <= billId < |bills|)
    ensures r.Ok? ==> r.value.0 == bills[billId] &&
                      r.value.1 == OverdueDisplay(bills[billId], BillBuilding(rooms, bills[billId]), today)
  {
    match FindBill(bills, billId)
    case None => Err(BillNotFound)
    case Some(b) => Ok((b, OverdueDisplay(b, BillBuilding(rooms, b), today)))
  }

  /** The displayed total does not move when the overdue sweep stores the late
      fee: the stored fee is subtracted again, so it is not counted twice. */
  lemma SweepKeepsDisplayedTotal(b: Bill, building: Building, today: Date)
    requires IsPastDueOpen(b, today)
    requires b.lateFee.None? || b.lateFee == Some(0.0)
    ensures var before := OverdueDisplay(b, Some(building), today);
            var after := OverdueDisplay(SweepBill(b, Some(building), today), Some(building), today);
            before.Some? && after.Some? && after.value.adjustedTotal == before.value.adjustedTotal
  {
    var s := SweepBill(b, Some(building), today);
    assert Subtotal(s) == Subtotal(b);
    assert TotalAmount(s) == TotalAmount(b) + OrZero(s.lateFee);
  }

  /** Without other fees, the late fee the page displays is the one the sweep stores. */
  lemma DisplayedLateFeeIsSweptLateFee(b: Bill, building: Building, today: Date)
    requires IsPastDueOpen(b, today)
    requires b.lateFee.None? || b.lateFee == Some(0.0)
    requires OrZero(b.otherFees) == 0.0
    ensures OverdueDisplay(b, Some(building), today).value.totalLateFee ==
            SweepBill(b, Some(building), today).lateFee.value
  {
    assert TotalAmount(b) == Subtotal(b);
  }

  // ---------------------------------------------------------------------------
  // Recording a payment

  /** The bill after a recorded payment of `amount`: the amount is added to what
      was paid before, the date and reference are overwritten, and the status
      is Paid once the total is covered, else Pending while anything is paid.
      The payment method is not copied onto the bill. */
  function PaymentApplied(b: Bill, amount: real, paymentDate: Date, reference: string): (r: Bill)
    ensures r.amountPaid == Some(amount + OrZero(b.amountPaid))
    ensures r.paymentDate == Some(paymentDate) && r.paymentReference == Some(reference)
    ensures amount + OrZero(b.amountPaid) >= TotalAmount(b) ==> r.status == Paid
    ensures 0.0 < amount + OrZero(b.amountPaid) < TotalAmount(b) ==> r.status == Pending
    ensures amount + OrZero(b.amountPaid) <= 0.0 && amount + OrZero(b.amountPaid) < TotalAmount(b) ==>
              r.status == b.status
    ensures r.(status := b.status, amountPaid := b.amountPaid, paymentDate := b.paymentDate,
               paymentReference := b.paymentReference) == b
    ensures TotalAmount(r) == TotalAmount(b)
  {
    var totalPaid := amount + OrZero(b.amountPaid);
    var status := if totalPaid >= TotalAmount(b) then Paid else if totalPaid > 0.0 then Pending else b.status;
    b.(amountPaid := Some(totalPaid), paymentDate := Some(paymentDate), paymentReference := Some(reference),
       status := status)
  }

  /** `RecordPayment` (POST): a positive payment is added to the ledger and to
      the bill, and a confirmation is raised once the bill is paid. */
  method RecordPayment(db: Database, billId: int, amount: real, paymentDate: Date, paymentMethod: string,
                       paymentReference: string, notes: Option<string>) returns (r: Result<Bill, ActionError>)
    modifies db`bills, db`payments, db`notices
    ensures amount <= 0.0 && 0 <= billId < |old(db.bills)| ==> r == Err(NonPositiveAmount)
    ensures !(0 <= billId < |old(db.bills)|) ==> r == Err(BillNotFound)
    ensures r.Err? ==> db.bills == old(db.bills) && db.payments == old(db.payments) && db.notices == old(db.notices)
    ensures amount > 0.0 && 0 <= billId < |old(db.bills)| ==>
              var b := old(db.bills)[billId];
              r == Ok(PaymentApplied(b, amount, paymentDate, paymentReference)) &&
              db.bills == old(db.bills)[billId := r.value] &&
              db.payments == old(db.payments) + [Payment(billId, Some(b.tenantId), amount, paymentDate, paymentMethod,
                                                         Some(paymentReference), notes)] &&
              db.notices == old(db.notices) +
                            (if r.value.status == Paid then [Notice(b.tenantId, PaymentConfirmed, Some(billId))] else [])
  {
    var found := FindBill(db.bills, billId);
    if amount <= 0.0 {
      if found.None? {
        return Err(BillNotFound);
      }
      return Err(NonPositiveAmount);
    }
    if found.None? {
      return Err(BillNotFound);
    }
    var bill := found.value;
    db.payments := db.payments + [Payment(billId, Some(bill.tenantId), amount, paymentDate, paymentMethod,
                                          Some(paymentReference), notes)];
    var updated := PaymentApplied(bill, amount, paymentDate, paymentReference);
    if updated.status == Paid {
      db.notices := db.notices + [Notice(bill.tenantId, PaymentConfirmed, Some(billId))];
    }
    db.bills := db.bills[billId := updated];
    return Ok(updated);
  }

  /** The sum of a list of amounts. */
  function SumOf(xs: seq<real>): real {
    if |xs| == 0 then 0.0 else SumOf(xs[..|xs| - 1]) + xs[|xs| - 1]
  }

  /** A bill after several recorded payments, in order. */
  function PaymentsApplied(b: Bill, amounts: seq<real>, paymentDate: Date, reference: string): Bill {
    if |amounts| == 0 then b
    else PaymentApplied(PaymentsApplied(b, amounts[..|amounts| - 1], paymentDate, reference),
                        amounts[|amounts| - 1], paymentDate, reference)
  }

  /** Recorded payments accumulate: after positive payments the bill has been
      paid what it had plus their sum, its total is unchanged, and it is Paid
      exactly when that covers the total, otherwise Pending, whatever its status
      was before (an Overdue bill included). */
  lemma {:induction false} PaymentsAccumulate(b: Bill, amounts: seq<real>, paymentDate: Date, reference: string)
    requires |amounts| > 0
    requires forall i :: 0 <= i < |amounts| ==> amounts[i] > 0.0
    requires OrZero(b.amountPaid) >= 0.0
    ensures var r := PaymentsApplied(b, amounts, paymentDate, reference);
            r.amountPaid == Some(OrZero(b.amountPaid) + SumOf(amounts)) &&
            TotalAmount(r) == TotalAmount(b) &&
            (r.status == Paid <==> OrZero(b.amountPaid) + SumOf(amounts) >= TotalAmount(b)) &&
            (r.status != Paid ==> r.status == Pending)
    decreases |amounts|
  {
    var init := amounts[..|amounts| - 1];
    var prev := PaymentsApplied(b, init, paymentDate, reference);
    if |init| == 0 {
      assert prev == b;
    } else {
      forall i | 0 <= i < |init| ensures init[i] > 0.0 {
        assert init[i] == amounts[i];
      }
      PaymentsAccumulate(b, init, paymentDate, reference);
      assert SumOf(init) > 0.0 by { SumOfPositive(init); }
    }
  }

  /** The sum of positive amounts is positive. */
  lemma {:induction false} SumOfPositive(xs: seq<real>)
    requires |xs| > 0
    requires forall i :: 0 <= i < |xs| ==> xs[i] > 0.0
    ensures SumOf(xs) > 0.0
    decreases |xs|
  {
    var init := xs[..|xs| - 1];
    if |init| > 0 {
      forall i | 0 <= i < |init| ensures init[i] > 0.0 {
        assert init[i] == xs[i];
      }
      SumOfPositive(init);
    }
  }

  // ---------------------------------------------------------------------------
  // Approving a pending cash payment

  /** The bill after the landlord approves a cash payment of `amount`. */
  function PaymentApproved(b: Bill, amount: real, now: Date): (r: Bill)
    ensures r.status == Paid && r.paymentDate == Some(now) && r.amountPaid == Some(amount)
    ensures r.(status := b.status, paymentDate := b.paymentDate, amountPaid := b.amountPaid) == b
    ensures TotalAmount(r) == TotalAmount(b)
  {
    b.(status := Paid, paymentDate := Some(now), amountPaid := Some(amount))
  }

  /** The method an approved payment is recorded with. */
  const ApprovedMethod: string := "Cash"

  /** The reference an approved payment falls back to. */
  const ApprovedReference: string := "Approved by landlord"

  /** `ApprovePayment`: only a pending bill is approved; it becomes paid with
      the given amount, and a cash payment and a confirmation are recorded. */
  method ApprovePayment(db: Database, billId: int, amount: real, now: Date, stamp: string)
    returns (r: Result<Bill, ActionError>)
    modifies db`bills, db`payments, db`notices
    ensures !(0 <= billId < |old(db.bills)|) ==> r == Err(BillNotFound)
    ensures 0 <= billId < |old(db.bills)| && old(db.bills)[billId].status != Pending ==> r == Err(NotPending)
    ensures r.Err? ==> db.bills == old(db.bills) && db.payments == old(db.payments) && db.notices == old(db.notices)
    ensures 0 <= billId < |old(db.bills)| && old(db.bills)[billId].status == Pending ==>
              var b := old(db.bills)[billId];
              r == Ok(PaymentApproved(b, amount, now)) &&
              db.bills == old(db.bills)[billId := r.value] &&
              db.payments == old(db.payments) +
                             [Payment(billId, Some(b.tenantId), amount, now, ApprovedMethod,
                                      Some(b.paymentReference.GetOr(ApprovedReference)),
                                      Some("Cash payment approved by landlord on " + stamp))] &&
              db.notices == old(db.notices) + [Notice(b.tenantId, PaymentConfirmed, Some(billId))]
  {
    var found := FindBill(db.bills, billId);
    if found.None? {
      return Err(BillNotFound);
    }
    var bill := found.value;
    if bill.status != Pending {
      return Err(NotPending);
    }
    var updated := PaymentApproved(bill, amount, now);
    db.bills := db.bills[billId := updated];
    db.payments := db.payments + [Payment(billId, Some(bill.tenantId), amount, now, ApprovedMethod,
                                          Some(bill.paymentReference.GetOr(ApprovedReference)),
                                          Some("Cash payment approved by landlord on " + stamp))];
    db.notices := db.notices + [Notice(bill.tenantId, PaymentConfirmed, Some(billId))];
    return Ok(updated);
  }

  /** Approval overwrites the amount paid where a recorded payment adds to it:
      the two agree on a covering amount exactly when nothing was paid before. */
  lemma ApprovalOverwritesAmountPaid(b: Bill, amount: real, now: Date, reference: string)
    requires b.status == Pending
    requires amount >= TotalAmount(b) && OrZero(b.amountPaid) >= 0.0
    ensures PaymentApproved(b, amount, now).amountPaid == PaymentApplied(b, amount, now, reference).amountPaid
            <==> OrZero(b.amountPaid) == 0.0
    ensures PaymentApproved(b, amount, now).status == PaymentApplied(b, amount, now, reference).status
  {
  }

  // ---------------------------------------------------------------------------
  // Batch payment: reading the id list

  /** The characters `NumberStyles.Integer` allows around a number. */
  predicate IsNumberWhite(c: char) {
    c == ' ' || c == '\t' || c == '\n' || c == '\U{000B}' || c == '\U{000C}' || c == '\r'
  }

  /** `char.IsWhiteSpace`: the number white space, the Unicode space separators,
      and the next-line, line and paragraph separators. */
  predicate IsWhiteSpace(c: char) {
    IsNumberWhite(c) || c == '\U{0085}' || c == '\U{00A0}' || c == '\U{1680}' ||
    ('\U{2000}' <= c <= '\U{200A}') || c == '\U{2028}' || c == '\U{2029}' || c == '\U{202F}' ||
    c == '\U{205F}' || c == '\U{3000}'
  }

  /** `string.IsNullOrWhiteSpace`, a null string read as empty. */
  predicate IsBlank(s: string) {
    forall i :: 0 <= i < |s| ==> IsWhiteSpace(s[i])
  }

  /** `Split(sep, StringSplitOptions.RemoveEmptyEntries)` of `s`, with `cur`
      the piece read so far. */
  function SplitFrom(s: string, sep: char, cur: string): (parts: seq<string>)
    ensures forall i :: 0 <= i < |parts| ==> |parts[i]| > 0
    ensures sep !in cur ==> forall i :: 0 <= i < |parts| ==> sep !in parts[i]
    decreases |s|
  {
    if |s| == 0 then (if |cur| > 0 then [cur] else [])
    else if s[0] == sep then (if |cur| > 0 then [cur] else []) + SplitFrom(s[1..], sep, [])
    else SplitFrom(s[1..], sep, cur + [s[0]])
  }

  /** `s.Split(sep, StringSplitOptions.RemoveEmptyEntries)`. */
  function Split(s: string, sep: char): (parts: seq<string>)
    ensures forall i :: 0 <= i < |parts| ==> |parts[i]| > 0 && sep !in parts[i]
  {
    SplitFrom(s, sep, [])
  }

  /** `string.Join(sep, parts)`. */
  function Join(parts: seq<string>, sep: char): string {
    if |parts| == 0 then []
    else if |parts| == 1 then parts[0]
    else parts[0] + [sep] + Join(parts[1..], sep)
  }

  /** Reading a piece without separators only extends the current piece. */
  lemma {:induction false} SplitReadsPiece(piece: string, rest: string, sep: char, cur: string)
    requires sep !in piece
    ensures SplitFrom(piece + rest, sep, cur) == SplitFrom(rest, sep, cur + piece)
    decreases |piece|
  {
    if |piece| > 0 {
      assert (piece + rest)[0] == piece[0];
      assert (piece + rest)[1..] == piece[1..] + rest;
      SplitReadsPiece(piece[1..], rest, sep, cur + [piece[0]]);
      assert cur + [piece[0]] + piece[1..] == cur + piece;
    } else {
      assert piece + rest == rest && cur + piece == cur;
    }
  }

  /** Splitting undoes joining, for non-empty pieces without separators. */
  lemma {:induction false} SplitJoin(parts: seq<string>, sep: char)
    requires forall i :: 0 <= i < |parts| ==> |parts[i]| > 0 && sep !in parts[i]
    ensures Split(Join(parts, sep), sep) == parts
    decreases |parts|
  {
    if |parts| == 1 {
      SplitReadsPiece(parts[0], [], sep, []);
      assert parts[0] + [] == parts[0] && [] + parts[0] == parts[0];
      assert SplitFrom([], sep, parts[0]) == [parts[0]];
    } else if |parts| > 1 {
      var tail := [sep] + Join(parts[1..], sep);
      assert Join(parts, sep) == parts[0] + tail;
      SplitReadsPiece(parts[0], tail, sep, []);
      assert [] + parts[0] == parts[0];
      assert tail[0] == sep && tail[1..] == Join(parts[1..], sep);
      assert SplitFrom(tail, sep, parts[0]) == [parts[0]] + SplitFrom(Join(parts[1..], sep), sep, []);
      SplitJoin(parts[1..], sep);
    }
  }

  predicate IsDigit(c: char) {
    '0' <= c <= '9'
  }

  predicate AllDigits(s: string) {
    forall i :: 0 <= i < |s| ==> IsDigit(s[i])
  }

  /** The value of a string of decimal digits. */
  function DigitsValue(ds: string): nat
    requires AllDigits(ds)
  {
    if |ds| == 0 then 0 else DigitsValue(ds[..|ds| - 1]) * 10 + ((ds[|ds| - 1] as int) - ('0' as int))
  }

  /** `s` without its leading number white space. */
  function TrimStart(s: string): string {
    if |s| > 0 && IsNumberWhite(s[0]) then TrimStart(s[1..]) else s
  }

  /** `s` without its trailing number white space. */
  function TrimEnd(s: string): string {
    if |s| > 0 && IsNumberWhite(s[|s| - 1]) then TrimEnd(s[..|s| - 1]) else s
  }

  const Int32Min: int := -0x8000_0000
  const Int32Max: int := 0x7FFF_FFFF

  /** `int.TryParse(s, out v)`: optional white space, an optional sign, one or
      more decimal digits, optional white space, and a value that fits in 32 bits. */
  function ParseInt32(s: string): (r: Option<int>)
    ensures r.Some? ==> Int32Min <= r.value <= Int32Max
  {
    var t := TrimEnd(TrimStart(s));
    var negative := |t| > 0 && t[0] == '-';
    var digits := if |t| > 0 && (t[0] == '-' || t[0] == '+') then t[1..] else t;
    if |digits| == 0 || !AllDigits(digits) then None
    else
      var magnitude: int := DigitsValue(digits);
      var v := if negative then -magnitude else magnitude;
      if Int32Min <= v <= Int32Max then Some(v) else None
  }

  /** The decimal digits of `n`, as `n.ToString()` writes them. */
  function DecimalString(n: nat): (s: string)
    ensures |s| > 0 && AllDigits(s)
  {
    if n < 10 then [('0' as int + n) as char]
    else DecimalString(n / 10) + [('0' as int + n % 10) as char]
  }

  /** Reading back the digits of `n` gives `n`. */
  lemma {:induction false} DecimalStringValue(n: nat)
    ensures DigitsValue(DecimalString(n)) == n
  {
    var s := DecimalString(n);
    if n >= 10 {
      DecimalStringValue(n / 10);
      assert s[..|s| - 1] == DecimalString(n / 10);
    }
  }

  /** Parsing the decimal digits of an id that fits in 32 bits gives the id back. */
  lemma ParseDecimalString(n: nat)
    requires n <= Int32Max
    ensures ParseInt32(DecimalString(n)) == Some(n)
  {
    var s := DecimalString(n);
    assert TrimStart(s) == s by { assert IsDigit(s[0]); }
    assert TrimEnd(s) == s by { assert IsDigit(s[|s| - 1]); }
    assert IsDigit(s[0]);
    DecimalStringValue(n);
  }

  /** The ids the batch reads, in order: the pieces that parse as integers. */
  function ParsedIds(parts: seq<string>): seq<int> {
    if |parts| == 0 then []
    else
      (match ParseInt32(parts[0]) case Some(v) => [v] case None => []) + ParsedIds(parts[1..])
  }

  /** Every id the batch reads is one of the pieces parsed. */
  lemma {:induction false} ParsedIdsOfDecimalStrings(ids: seq<nat>)
    requires forall i :: 0 <= i < |ids| ==> ids[i] <= Int32Max
    ensures ParsedIds(seq(|ids|, i requires 0 <= i < |ids| => DecimalString(ids[i]))) == ids
    decreases |ids|
  {
    var parts := seq(|ids|, i requires 0 <= i < |ids| => DecimalString(ids[i]));
    if |ids| > 0 {
      var tail := seq(|ids| - 1, i requires 0 <= i < |ids| - 1 => DecimalString(ids[1..][i]));
      assert parts[1..] == tail;
      ParseDecimalString(ids[0]);
      ParsedIdsOfDecimalStrings(ids[1..]);
      assert ParsedIds(parts) == [ids[0]] + ParsedIds(tail);
      assert ids == [ids[0]] + ids[1..];
    }
  }

  /** A comma-separated list of the decimal ids of the bills is read back as
      exactly those ids, in order. */
  lemma CommaListRoundTrip(ids: seq<nat>)
    requires forall i :: 0 <= i < |ids| ==> ids[i] <= Int32Max
    ensures ParsedIds(Split(Join(seq(|ids|, i requires 0 <= i < |ids| => DecimalString(ids[i])), ','), ',')) == ids
  {
    var parts := seq(|ids|, i requires 0 <= i < |ids| => DecimalString(ids[i]));
    forall i | 0 <= i < |parts| ensures |parts[i]| > 0 && ',' !in parts[i] {
      assert AllDigits(parts[i]);
    }
    SplitJoin(parts, ',');
    ParsedIdsOfDecimalStrings(ids);
  }

  // ---------------------------------------------------------------------------
  // Batch payment: marking the bills paid

  /** The three tables a batch payment writes. */
  datatype Ledger = Ledger(bills: seq<Bill>, payments: seq<Payment>, notices: seq<Notice>)

  /** A batch outcome: the tables and the number of bills processed. */
  datatype BatchOutcome = BatchOutcome(ledger: Ledger, processed: nat)

  /** A bill marked paid in full by a batch payment; notes are appended after
      the existing ones, or replace them when there are none. */
  function BatchPaid(b: Bill, paymentDate: Date, paymentMethod: string, reference: Option<string>,
                     notes: Option<string>): (r: Bill)
    ensures r.status == Paid && TotalAmount(r) == TotalAmount(b) && r.amountPaid == Some(TotalAmount(b))
    ensures r.paymentDate == Some(paymentDate) && r.paymentMethod == Some(paymentMethod)
    ensures r.paymentReference == reference
    ensures b.notes.Some? && |b.notes.value| > 0 ==>
              r.notes.Some? && |r.notes.value| >= |b.notes.value| &&
              r.notes.value[..|b.notes.value|] == b.notes.value
    ensures r.(status := b.status, paymentDate := b.paymentDate, paymentMethod := b.paymentMethod,
               paymentReference := b.paymentReference, notes := b.notes, amountPaid := b.amountPaid) == b
  {
    var newNotes := if b.notes.None? || |b.notes.value| == 0 then notes
                    else Some(b.notes.value + "\nPayment notes: " + notes.GetOr(""));
    b.(status := Paid, paymentDate := Some(paymentDate), paymentMethod := Some(paymentMethod),
       paymentReference := reference, notes := newNotes, amountPaid := Some(TotalAmount(b)))
  }

  /** One id of the batch: a missing or already paid bill is skipped. */
  function BatchOne(st: Ledger, billId: int, paymentDate: Date, paymentMethod: string,
                    reference: Option<string>, notes: Option<string>): (r: (Ledger, bool))
    ensures |r.0.bills| == |st.bills|
    ensures r.1 <==> 0 <= billId < |st.bills| && st.bills[billId].status != Paid
    ensures !r.1 ==> r.0 == st
    ensures r.1 ==> r.0.bills == st.bills[billId := BatchPaid(st.bills[billId], paymentDate, paymentMethod,
                                                              reference, notes)]
    ensures r.1 ==> r.0.payments == st.payments + [Payment(billId, None, TotalAmount(st.bills[billId]), paymentDate,
                                                           paymentMethod, reference, notes)]
    ensures r.1 ==> r.0.notices == st.notices + [Notice(st.bills[billId].tenantId, PaymentConfirmed, Some(billId))]
  {
    match FindBill(st.bills, billId)
    case None => (st, false)
    case Some(b) =>
      if b.status == Paid then (st, false)
      else
        (Ledger(st.bills[billId := BatchPaid(b, paymentDate, paymentMethod, reference, notes)],
                st.payments + [Payment(billId, None, TotalAmount(b), paymentDate, paymentMethod, reference, notes)],
                st.notices + [Notice(b.tenantId, PaymentConfirmed, Some(billId))]),
         true)
  }

  /** The ids of a batch, in order. */
  function Batch(st: Ledger, ids: seq<int>, paymentDate: Date, paymentMethod: string,
                 reference: Option<string>, notes: Option<string>): BatchOutcome
    decreases |ids|
  {
    if |ids| == 0 then BatchOutcome(st, 0)
    else
      var (next, done) := BatchOne(st, ids[0], paymentDate, paymentMethod, reference, notes);
      var rest := Batch(next, ids[1..], paymentDate, paymentMethod, reference, notes);
      rest.(processed := rest.processed + if done then 1 else 0)
  }

  /** `BatchRecordPayment`: a blank id list is refused; otherwise each listed
      bill that exists and is not paid is paid in full, with one payment and one
      confirmation, and the number of such bills is returned. */
  method BatchRecordPayment(db: Database, billIds: string, paymentDate: Date, paymentMethod: string,
                            reference: Option<string>, notes: Option<string>) returns (r: Result<nat, ActionError>)
    modifies db`bills, db`payments, db`notices
    ensures IsBlank(billIds) ==>
              r == Err(NoBillsSelected) && db.bills == old(db.bills) && db.payments == old(db.payments) && db.notices == old(db.notices)
    ensures !IsBlank(billIds) ==>
              var run := Batch(Ledger(old(db.bills), old(db.payments), old(db.notices)),
                               ParsedIds(Split(billIds, ',')), paymentDate, paymentMethod, reference, notes);
              r == Ok(run.processed) && Ledger(db.bills, db.payments, db.notices) == run.ledger
  {
    if forall i :: 0 <= i < |billIds| ==> IsWhiteSpace(billIds[i]) {
      return Err(NoBillsSelected);
    }
    var parts := Split(billIds, ',');
    ghost var final := Batch(Ledger(db.bills, db.payments, db.notices), ParsedIds(parts),
                             paymentDate, paymentMethod, reference, notes);
    var processedCount := 0;
    var i := 0;
    while i < |parts|
      invariant 0 <= i <= |parts|
      invariant var rest := Batch(Ledger(db.bills, db.payments, db.notices), ParsedIds(parts[i..]),
                                  paymentDate, paymentMethod, reference, notes);
                rest.ledger == final.ledger && processedCount + rest.processed == final.processed
    {
      ParsedIdsStep(parts, i);
      var parsed := ParseInt32(parts[i]);
      ghost var before := Ledger(db.bills, db.payments, db.notices);
      if parsed.None? {
        assert ParsedIds(parts[i..]) == ParsedIds(parts[i + 1..]);
      } else {
        var billId := parsed.value;
        BatchStep(Ledger(db.bills, db.payments, db.notices), billId, ParsedIds(parts[i + 1..]),
                  paymentDate, paymentMethod, reference, notes);
        var found := FindBill(db.bills, billId);
        if found.Some? && found.value.status != Paid {
          var bill := found.value;
          db.bills := db.bills[billId := BatchPaid(bill, paymentDate, paymentMethod, reference, notes)];
          db.payments := db.payments + [Payment(billId, None, TotalAmount(bill), paymentDate, paymentMethod,
                                                reference, notes)];
          db.notices := db.notices + [Notice(bill.tenantId, PaymentConfirmed, Some(billId))];
          processedCount := processedCount + 1;
        }
        assert Ledger(db.bills, db.payments, db.notices) ==
               BatchOne(before, billId, paymentDate, paymentMethod, reference, notes).0;
      }
      i := i + 1;
    }
    assert parts[i..] == [];
    return Ok(processedCount);
  }

  /** The ids read from the pieces from `i` on: those of piece `i`, then the rest. */
  lemma ParsedIdsStep(parts: seq<string>, i: nat)
    requires i < |parts|
    ensures ParsedIds(parts[i..]) ==
            (match ParseInt32(parts[i]) case Some(v) => [v] case None => []) + ParsedIds(parts[i + 1..])
  {
    assert parts[i..][0] == parts[i] && parts[i..][1..] == parts[i + 1..];
  }

  /** A batch is its first id, then the others. */
  lemma BatchStep(st: Ledger, billId: int, rest: seq<int>, paymentDate: Date, paymentMethod: string,
                  reference: Option<string>, notes: Option<string>)
    ensures var (next, done) := BatchOne(st, billId, paymentDate, paymentMethod, reference, notes);
            var r := Batch(next, rest, paymentDate, paymentMethod, reference, notes);
            Batch(st, [billId] + rest, paymentDate, paymentMethod, reference, notes) ==
            r.(processed := r.processed + if done then 1 else 0)
  {
    assert ([billId] + rest)[0] == billId && ([billId] + rest)[1..] == rest;
  }

  /** After a batch, every listed bill that exists is paid, the others are as
      they were, and the ledger gained one payment per processed bill. */
  lemma {:induction false} BatchPaysListedBills(st: Ledger, ids: seq<int>, paymentDate: Date, paymentMethod: string,
                                                reference: Option<string>, notes: Option<string>)
    ensures var run := Batch(st, ids, paymentDate, paymentMethod, reference, notes);
            |run.ledger.bills| == |st.bills| &&
            |run.ledger.payments| == |st.payments| + run.processed &&
            run.processed <= |ids| &&
            (forall k :: 0 <= k < |st.bills| && k in ids ==> run.ledger.bills[k].status == Paid) &&
            (forall k :: 0 <= k < |st.bills| && (k !in ids || st.bills[k].status == Paid) ==>
                           run.ledger.bills[k] == st.bills[k])
    decreases |ids|
  {
    if |ids| > 0 {
      var (next, done) := BatchOne(st, ids[0], paymentDate, paymentMethod, reference, notes);
      BatchPaysListedBills(next, ids[1..], paymentDate, paymentMethod, reference, notes);
      var run := Batch(st, ids, paymentDate, paymentMethod, reference, notes);
      forall k | 0 <= k < |st.bills| && k in ids ensures run.ledger.bills[k].status == Paid {
        if k != ids[0] {
          assert k in ids[1..];
        }
      }
    }
  }

  /** Submitting the same batch again processes nothing and changes nothing. */
  lemma BatchRerunProcessesNothing(st: Ledger, ids: seq<int>, paymentDate: Date, paymentMethod: string,
                                   reference: Option<string>, notes: Option<string>)
    ensures var first := Batch(st, ids, paymentDate, paymentMethod, reference, notes);
            Batch(first.ledger, ids, paymentDate, paymentMethod, reference, notes) == BatchOutcome(first.ledger, 0)
  {
    var first := Batch(st, ids, paymentDate, paymentMethod, reference, notes);
    BatchPaysListedBills(st, ids, paymentDate, paymentMethod, reference, notes);
    BatchOverPaidIsNoop(first.ledger, ids, paymentDate, paymentMethod, reference, notes);
  }

  /** A batch whose listed bills are all missing or paid changes nothing. */
  lemma {:induction false} BatchOverPaidIsNoop(st: Ledger, ids: seq<int>, paymentDate: Date, paymentMethod: string,
                                               reference: Option<string>, notes: Option<string>)
    requires forall k :: k in ids && 0 <= k < |st.bills| ==> st.bills[k].status == Paid
    ensures Batch(st, ids, paymentDate, paymentMethod, reference, notes) == BatchOutcome(st, 0)
    decreases |ids|
  {
    if |ids| > 0 {
      assert ids[0] in ids;
      BatchOverPaidIsNoop(st, ids[1..], paymentDate, paymentMethod, reference, notes);
    }
  }

  // ---------------------------------------------------------------------------
  // Linking a meter reading

  /** The tables after `LinkMeterReading`, or why it was refused. */
  function LinkOutcome(bills: seq<Bill>, readings: seq<MeterReading>, billId: int, readingId: int)
    : (r: Result<(seq<Bill>, seq<MeterReading>), ActionError>)
    ensures r == Err(BillOrReadingNotFound) <==> !(0 <= billId < |bills|) || !(0 <= readingId < |readings|)
    ensures r == Err(ReadingAlreadyLinked) <==>
              0 <= billId < |bills| && 0 <= readingId < |readings| && readings[readingId].billId.Some?
    ensures r.Ok? ==>
              var (bs, rs) := r.value;
              |bs| == |bills| && |rs| == |readings| &&
              rs[readingId].billId == Some(billId) &&
              bs[billId].electricityFee == TotalCharge(readings[readingId]) &&
              TotalAmount(bs[billId]) ==
                TotalAmount(bills[billId]) - bills[billId].electricityFee + TotalCharge(readings[readingId]) &&
              (forall k :: 0 <= k < |bills| && k != billId ==> bs[k] == bills[k]) &&
              (forall k :: 0 <= k < |readings| && k != readingId ==> rs[k] == readings[k])
  {
    if !(0 <= billId < |bills|) || !(0 <= readingId < |readings|) then Err(BillOrReadingNotFound)
    else
      var reading := readings[readingId];
      if reading.billId.Some? then Err(ReadingAlreadyLinked)
      else
        Ok((bills[billId := bills[billId].(electricityFee := TotalCharge(reading))],
            readings[readingId := reading.(billId := Some(billId))]))
  }

  /** `LinkMeterReading`: links an unlinked reading to a bill and charges the
      reading's electricity on it; returns the charge. */
  method LinkMeterReading(db: Database, billId: int, readingId: int) returns (r: Result<real, ActionError>)
    modifies db`bills, db`readings
    ensures var outcome := LinkOutcome(old(db.bills), old(db.readings), billId, readingId);
            (outcome.Err? ==> r == Err(outcome.error) && db.bills == old(db.bills) && db.readings == old(db.readings)) &&
            (outcome.Ok? ==> r == Ok(TotalCharge(old(db.readings)[readingId])) &&
                             (db.bills, db.readings) == outcome.value)
  {
    if !(0 <= billId < |db.bills|) || !(0 <= readingId < |db.readings|) {
      return Err(BillOrReadingNotFound);
    }
    var reading := db.readings[readingId];
    if reading.billId.Some? {
      return Err(ReadingAlreadyLinked);
    }
    db.readings := db.readings[readingId := reading.(billId := Some(billId))];
    db.bills := db.bills[billId := db.bills[billId].(electricityFee := TotalCharge(reading))];
    return Ok(TotalCharge(reading));
  }

  /** A reading is linked at most once: linking it again, to any bill, is refused. */
  lemma ReadingLinksOnce(bills: seq<Bill>, readings: seq<MeterReading>, billId: int, readingId: int, otherBill: int)
    requires LinkOutcome(bills, readings, billId, readingId).Ok?
    requires 0 <= otherBill < |bills|
    ensures var (bs, rs) := LinkOutcome(bills, readings, billId, readingId).value;
            LinkOutcome(bs, rs, otherBill, readingId) == Err(ReadingAlreadyLinked)
  {
  }

  /** Some reading is linked to the bill. */
  predicate HasLinkedReading(readings: seq<MeterReading>, billId: int) {
    exists k :: 0 <= k < |readings| && readings[k].billId == Some(billId)
  }

  /** Two different readings are linked to the bill. */
  predicate SharedReading(readings: seq<MeterReading>, billId: int) {
    exists i, j :: 0 <= i < j < |readings| && readings[i].billId == Some(billId) && readings[j].billId == Some(billId)
  }

  /** Every bill carries at most one reading. */
  predicate OneReadingPerBill(readings: seq<MeterReading>) {
    forall i, j :: 0 <= i < j < |readings| && readings[i].billId.Some? ==> readings[i].billId != readings[j].billId
  }

  /** `LinkMeterReading` with the check on the bill's side that the action
      lacks: a bill that already carries a reading is refused as well. */
  function GuardedLinkOutcome(bills: seq<Bill>, readings: seq<MeterReading>, billId: int, readingId: int)
    : (r: Result<(seq<Bill>, seq<MeterReading>), ActionError>)
    ensures r == Err(BillAlreadyLinked) <==>
              LinkOutcome(bills, readings, billId, readingId).Ok? && HasLinkedReading(readings, billId)
    ensures r != Err(BillAlreadyLinked) ==> r == LinkOutcome(bills, readings, billId, readingId)
  {
    var outcome := LinkOutcome(bills, readings, billId, readingId);
    if outcome.Ok? && HasLinkedReading(readings, billId) then Err(BillAlreadyLinked) else outcome
  }

  /** The guarded link keeps every bill at one reading at most. */
  lemma GuardedLinkKeepsOneReadingPerBill(bills: seq<Bill>, readings: seq<MeterReading>, billId: int, readingId: int)
    requires OneReadingPerBill(readings)
    requires GuardedLinkOutcome(bills, readings, billId, readingId).Ok?
    ensures OneReadingPerBill(GuardedLinkOutcome(bills, readings, billId, readingId).value.1)
  {
    var rs := GuardedLinkOutcome(bills, readings, billId, readingId).value.1;
    forall i, j | 0 <= i < j < |rs| && rs[i].billId.Some?
      ensures rs[i].billId != rs[j].billId
    {
      if i == readingId {
        assert rs[j] == readings[j];
        assert readings[j].billId != Some(billId);
      } else if j == readingId {
        assert rs[i] == readings[i];
        assert readings[i].billId != Some(billId);
      } else {
        assert rs[i] == readings[i] && rs[j] == readings[j];
      }
    }
  }

  // ---------------------------------------------------------------------------
  // Approving a bill

  /** A bill approved for the tenant's eyes. */
  function BillApproved(b: Bill): (r: Bill)
    ensures r.isApproved && r.(isApproved := b.isApproved) == b && TotalAmount(r) == TotalAmount(b)
  {
    b.(isApproved := true)
  }

  /** `ApproveBill`: the bill becomes visible to its tenant, and a new-bill
      notification is raised on every call, approved before or not. */
  method ApproveBill(db: Database, billId: int) returns (r: Result<Bill, ActionError>)
    modifies db`bills, db`notices
    ensures !(0 <= billId < |old(db.bills)|) ==>
              r == Err(BillNotFound) && db.bills == old(db.bills) && db.notices == old(db.notices)
    ensures 0 <= billId < |old(db.bills)| ==>
              var b := old(db.bills)[billId];
              r == Ok(BillApproved(b)) && db.bills == old(db.bills)[billId := BillApproved(b)] &&
              db.notices == old(db.notices) + [Notice(b.tenantId, NotificationType.NewBill, Some(billId))]
  {
    var found := FindBill(db.bills, billId);
    if found.None? {
      return Err(BillNotFound);
    }
    var bill := BillApproved(found.value);
    db.bills := db.bills[billId := bill];
    db.notices := db.notices + [Notice(bill.tenantId, NotificationType.NewBill, Some(billId))];
    return Ok(bill);
  }

  /** Approving twice leaves the bill as approving once does. */
  lemma ApprovalIsIdempotent(b: Bill)
    ensures BillApproved(BillApproved(b)) == BillApproved(b)
  {
  }

  // ---------------------------------------------------------------------------
  // The controller's initial bill

  /** The initial bill `GenerateInitialBill` inserts: billed on the first of the
      current month, due in the current month on the tenant's anchor day, which
      must exist in that month, pending, with custom fees over building
      defaults, no electricity, and billing month and year left at zero. */
  function ControllerInitialBill(users: seq<Tenant>, rooms: seq<Room>, tenantId: string, today: Date, stamp: string)
    : (r: Result<Bill, ActionError>)
    ensures r == Err(ChainMissing) <==> ResolveChain(users, rooms, tenantId).Err?
    ensures r == Err(DayOutsideMonth) <==>
              ResolveChain(users, rooms, tenantId).Ok? &&
              BillingCycleDay(ResolveChain(users, rooms, tenantId).value.0) > DaysInMonth(today.year, today.month)
    ensures r.Ok? ==>
              var (t, room, building) := ResolveChain(users, rooms, tenantId).value;
              r.value.tenantId == tenantId && r.value.roomId == room.roomId &&
              r.value.billingDate == FirstOfMonth(today.year, today.month) &&
              r.value.dueDate == Ymd(today.year, today.month, BillingCycleDay(t)) &&
              r.value.billingMonth == 0 && r.value.billingYear == 0 &&
              r.value.status == Pending && !r.value.isApproved &&
              r.value.monthlyRent == room.customMonthlyRent.GetOr(building.defaultMonthlyRent) &&
              r.value.waterFee == room.customWaterFee.GetOr(building.defaultWaterFee) &&
              r.value.wifiFee == room.customWifiFee.GetOr(building.defaultWifiFee) &&
              r.value.electricityFee == 0.0 &&
              r.value.notes == Some("Initial bill generated on " + stamp)
  {
    match ResolveChain(users, rooms, tenantId)
    case Err(_) => Err(ChainMissing)
    case Ok((t, room, building)) =>
      var day := BillingCycleDay(t);
      if day > DaysInMonth(today.year, today.month) then Err(DayOutsideMonth)
      else
        Ok(BillModel.NewBill(tenantId, room.roomId, FirstOfMonth(today.year, today.month), 0, 0,
                   Ymd(today.year, today.month, day),
                   room.customMonthlyRent.GetOr(building.defaultMonthlyRent),
                   room.customWaterFee.GetOr(building.defaultWaterFee), 0.0,
                   room.customWifiFee.GetOr(building.defaultWifiFee), Pending,
                   Some("Initial bill generated on " + stamp)))
  }

  /** `GenerateInitialBill` (the landlord's action). */
  method GenerateInitialBill(db: Database, tenantId: string, today: Date, stamp: string)
    returns (r: Result<Bill, ActionError>)
    modifies db`bills
    ensures r == ControllerInitialBill(db.users, db.rooms, tenantId, today, stamp)
    ensures r.Ok? ==> db.bills == old(db.bills) + [r.value]
    ensures r.Err? ==> db.bills == old(db.bills)
  {
    r := ControllerInitialBill(db.users, db.rooms, tenantId, today, stamp);
    if r.Ok? {
      db.bills := db.bills + [r.value];
    }
  }

  /** A tenant who started on the 31st cannot be given an initial bill in a
      30-day month: the due date does not exist. */
  lemma ControllerInitialBillFailsOnShortMonth(building: Building)
    ensures var room := Room(7, true, None, None, None, None, Some(Floor(1, building.buildingId, Some(building))));
            var t := Tenant("t", Ymd(2025, 1, 31), Some(7), Some(building.buildingId), false);
            ControllerInitialBill([t], [room], "t", Ymd(2025, 4, 10), "") == Err(DayOutsideMonth)
  {
    var room := Room(7, true, None, None, None, None, Some(Floor(1, building.buildingId, Some(building))));
    var t := Tenant("t", Ymd(2025, 1, 31), Some(7), Some(building.buildingId), false);
    assert FindUser([t], "t") == Some(t);
    assert FindRoom([room], 7) == Some(room);
    assert DaysInMonth(2025, 4) == 30;
  }

  /** The initial bill with its due day clamped to the month and its billing
      month and year filled in, as the billing service's initial bill has them. */
  function ClampedControllerInitialBill(users: seq<Tenant>, rooms: seq<Room>, tenantId: string, today: Date,
                                        stamp: string): (r: Result<Bill, ActionError>)
    ensures r.Err? <==> ResolveChain(users, rooms, tenantId).Err?
    ensures r.Ok? ==>
              var t := ResolveChain(users, rooms, tenantId).value.0;
              SameMonth(r.value.dueDate, today) &&
              r.value.dueDate.day == Min(BillingCycleDay(t), DaysInMonth(today.year, today.month)) &&
              r.value.billingMonth == today.month && r.value.billingYear == today.year
    ensures ControllerInitialBill(users, rooms, tenantId, today, stamp).Ok? ==>
              var b := ControllerInitialBill(users, rooms, tenantId, today, stamp).value;
              r == Ok(b.(billingMonth := today.month, billingYear := today.year))
  {
    match ResolveChain(users, rooms, tenantId)
    case Err(_) => Err(ChainMissing)
    case Ok((t, room, building)) =>
      Ok(BillModel.NewBill(tenantId, room.roomId, FirstOfMonth(today.year, today.month), today.month, today.year,
                 ClampedDate(today.year, today.month, BillingCycleDay(t)),
                 room.customMonthlyRent.GetOr(building.defaultMonthlyRent),
                 room.customWaterFee.GetOr(building.defaultWaterFee), 0.0,
                 room.customWifiFee.GetOr(building.defaultWifiFee), Pending,
                 Some("Initial bill generated on " + stamp)))
  }
}
