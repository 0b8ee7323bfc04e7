/** The tenant's bill screens: which bills a tenant sees, the details page,
    and the cash payment a tenant starts, confirms or cancels. */
module TenantController {
  import opened Wrappers
  import opened Calendar
  import opened BillModel
  import opened MeterModel
  import opened Store
  import opened BillingService
  import Landlord = BillingController

  /** Why a tenant's action was refused; a refusal changes nothing. */
  datatype TenantError =
    | BillNotFound        // no such bill, not the tenant's, or not in the required state
    | ReferenceRequired   // confirming without a payment reference
    | DuplicateReading    // the bill list meets a second reading linked to one bill

  // ---------------------------------------------------------------------------
  // Visibility

  /** A tenant sees a bill when it is theirs and the landlord has approved it. */
  predicate Visible(b: Bill, userId: string) {
    b.tenantId == userId && b.isApproved
  }

  /** `Bills`: the ids of the bills the tenant sees, in ascending id order. */
  function VisibleBills(bills: seq<Bill>, userId: string): (ids: seq<nat>)
    ensures forall k: int :: k in ids <==> 0 <= k < |bills| && Visible(bills[k], userId)
    ensures forall i, j :: 0 <= i < j < |ids| ==> ids[i] < ids[j]
  {
    if |bills| == 0 then []
    else
      var last := |bills| - 1;
      var earlier := VisibleBills(bills[..last], userId);
      assert forall i :: 0 <= i < |earlier| ==> earlier[i] in earlier && earlier[i] < last;
      earlier + if Visible(bills[last], userId) then [last] else []
  }

  /** Appending a reading links it to its bill and to no other. */
  lemma LinkedReadingSnoc(readings: seq<MeterReading>)
    requires |readings| > 0
    ensures var init, last := readings[..|readings| - 1], readings[|readings| - 1];
            forall c: int :: Landlord.HasLinkedReading(readings, c) <==>
                               Landlord.HasLinkedReading(init, c) || last.billId == Some(c)
  {
    var init, last := readings[..|readings| - 1], readings[|readings| - 1];
    forall c: int ensures Landlord.HasLinkedReading(readings, c) <==> Landlord.HasLinkedReading(init, c) || last.billId == Some(c) {
      if Landlord.HasLinkedReading(readings, c) && last.billId != Some(c) {
        var k :| 0 <= k < |readings| && readings[k].billId == Some(c);
        assert init[k] == readings[k];
      }
      if Landlord.HasLinkedReading(init, c) {
        var k :| 0 <= k < |init| && init[k].billId == Some(c);
        assert readings[k] == init[k];
      }
    }
  }

  /** Appending a reading makes its bill shared exactly when the bill already
      had a reading. */
  lemma SharedReadingSnoc(readings: seq<MeterReading>)
    requires |readings| > 0
    ensures var init, last := readings[..|readings| - 1], readings[|readings| - 1];
            forall c: int :: Landlord.SharedReading(readings, c) <==>
                               Landlord.SharedReading(init, c) || (last.billId == Some(c) && Landlord.HasLinkedReading(init, c))
  {
    var init, n := readings[..|readings| - 1], |readings| - 1;
    forall c: int ensures Landlord.SharedReading(readings, c) <==>
                            Landlord.SharedReading(init, c) || (readings[n].billId == Some(c) && Landlord.HasLinkedReading(init, c))
    {
      if Landlord.SharedReading(readings, c) {
        var i, j :| 0 <= i < j < |readings| && readings[i].billId == Some(c) && readings[j].billId == Some(c);
        assert init[i] == readings[i];
        if j < n {
          assert init[j] == readings[j];
        }
      }
      if Landlord.SharedReading(init, c) {
        var i, j :| 0 <= i < j < |init| && init[i].billId == Some(c) && init[j].billId == Some(c);
        assert readings[i] == init[i] && readings[j] == init[j];
      }
      if readings[n].billId == Some(c) && Landlord.HasLinkedReading(init, c) {
        var k :| 0 <= k < |init| && init[k].billId == Some(c);
        assert readings[k] == init[k];
      }
    }
  }

  /** The readings linked to the listed bills, keyed by bill id, as the
      dictionary `Bills` hands to its view. Building it fails on a second
      reading for one bill. */
  function ReadingsByBill(readings: seq<MeterReading>, ids: seq<nat>): (r: Result<map<int, nat>, TenantError>)
    ensures r.Err? <==> exists b :: b in ids && Landlord.SharedReading(readings, b)
    ensures r.Ok? ==> forall b: int :: b in r.value <==> b in ids && Landlord.HasLinkedReading(readings, b)
    ensures r.Ok? ==> forall b :: b in r.value ==> r.value[b] < |readings| && readings[r.value[b]].billId == Some(b)
  {
    if |readings| == 0 then Ok(map[])
    else
      var last := |readings| - 1;
      var init := readings[..last];
      var reading := readings[last];
      var prefix := ReadingsByBill(init, ids);
      LinkedReadingSnoc(readings);
      SharedReadingSnoc(readings);
      if prefix.Err? then
        Err(prefix.error)
      else if reading.billId.Some? && reading.billId.value >= 0 && reading.billId.value in ids then
        var b := reading.billId.value;
        if b in prefix.value then
          Err(DuplicateReading)
        else
          Ok(prefix.value[b := last])
      else
        assert forall b :: b in prefix.value ==> readings[prefix.value[b]] == init[prefix.value[b]];
        prefix
  }

  /** `Bills`: the bills the tenant sees and the readings linked to them. The
      list fails exactly when one of those bills carries two readings. */
  function BillList(bills: seq<Bill>, readings: seq<MeterReading>, userId: string)
    : (r: Result<(seq<nat>, map<int, nat>), TenantError>)
    ensures r.Err? <==>
              exists b :: 0 <= b < |bills| && Visible(bills[b], userId) && Landlord.SharedReading(readings, b)
    ensures r.Ok? ==> r.value.0 == VisibleBills(bills, userId)
    ensures r.Ok? ==> forall b: int :: b in r.value.1 <==>
                        0 <= b < |bills| && Visible(bills[b], userId) && Landlord.HasLinkedReading(readings, b)
    ensures r.Ok? ==> forall b :: b in r.value.1 ==>
                        r.value.1[b] < |readings| && readings[r.value.1[b]].billId == Some(b)
  {
    var ids := VisibleBills(bills, userId);
    match ReadingsByBill(readings, ids)
    case Err(e) => Err(e)
    case Ok(m) => Ok((ids, m))
  }

  /** Linking two readings to one bill the tenant sees, which `LinkMeterReading`
      accepts, makes the tenant's bill list fail. */
  lemma LinkingTwiceBreaksBillList(bills: seq<Bill>, readings: seq<MeterReading>, userId: string,
                                   billId: nat, first: nat, second: nat)
    requires billId < |bills| && Visible(bills[billId], userId)
    requires first < |readings| && second < |readings| && first != second
    requires readings[first].billId.None? && readings[second].billId.None?
    ensures Landlord.LinkOutcome(bills, readings, billId, first).Ok?
    ensures var (bs, rs) := Landlord.LinkOutcome(bills, readings, billId, first).value;
            Landlord.LinkOutcome(bs, rs, billId, second).Ok? &&
            var (bs', rs') := Landlord.LinkOutcome(bs, rs, billId, second).value;
            BillList(bs', rs', userId).Err?
  {
    var (bs, rs) := Landlord.LinkOutcome(bills, readings, billId, first).value;
    var (bs', rs') := Landlord.LinkOutcome(bs, rs, billId, second).value;
    assert bs'[billId].tenantId == bills[billId].tenantId && bs'[billId].isApproved == bills[billId].isApproved;
    var i, j := if first < second then first else second, if first < second then second else first;
    assert rs'[i].billId == Some(billId) && rs'[j].billId == Some(billId);
    assert Landlord.SharedReading(rs', billId);
  }

  /** With every bill at one reading at most, the bill list always loads. */
  lemma OneReadingPerBillListLoads(bills: seq<Bill>, readings: seq<MeterReading>, userId: string)
    requires Landlord.OneReadingPerBill(readings)
    ensures BillList(bills, readings, userId).Ok?
  {
  }

  /** The guarded link keeps one reading per bill, so the bill list keeps loading. */
  lemma GuardedLinksKeepBillList(bills: seq<Bill>, readings: seq<MeterReading>, userId: string,
                                 billId: int, readingId: int)
    requires Landlord.OneReadingPerBill(readings)
    requires Landlord.GuardedLinkOutcome(bills, readings, billId, readingId).Ok?
    ensures var (bs, rs) := Landlord.GuardedLinkOutcome(bills, readings, billId, readingId).value;
            Landlord.OneReadingPerBill(rs) && BillList(bs, rs, userId).Ok?
  {
    var (bs, rs) := Landlord.GuardedLinkOutcome(bills, readings, billId, readingId).value;
    Landlord.GuardedLinkKeepsOneReadingPerBill(bills, readings, billId, readingId);
    OneReadingPerBillListLoads(bs, rs, userId);
  }

  /** The bill the details and payment pages load: only one the tenant sees. */
  function FindVisibleBill(bills: seq<Bill>, userId: string, billId: int): (r: Option<Bill>)
    ensures r.Some? <==> 0 <= billId < |bills| && Visible(bills[billId], userId)
    ensures r.Some? ==> r.value == bills[billId]
  {
    if 0 <= billId < |bills| && Visible(bills[billId], userId) then Some(bills[billId]) else None
  }

  /** A bill opens on the details page exactly when it is in the tenant's list. */
  lemma DetailsOpenListedBills(bills: seq<Bill>, userId: string, billId: int)
    ensures FindVisibleBill(bills, userId, billId).Some? <==> billId >= 0 && billId in VisibleBills(bills, userId)
  {
  }

  /** `BillDetails` (tenant): the bill and its overdue block, for a bill the
      tenant sees. */
  function TenantBillDetails(bills: seq<Bill>, rooms: seq<Entities.Room>, userId: string, billId: int, today: Date)
    : (r: Result<(Bill, Option<Landlord.OverdueView>), TenantError>)
    ensures r.Err? <==> FindVisibleBill(bills, userId, billId).None?
    ensures r.Ok? ==> r.value.0 == bills[billId] &&
                      r.value.1 == Landlord.OverdueDisplay(bills[billId], BillBuilding(rooms, bills[billId]), today)
  {
    match FindVisibleBill(bills, userId, billId)
    case None => Err(BillNotFound)
    case Some(b) => Ok((b, Landlord.OverdueDisplay(b, BillBuilding(rooms, b), today)))
  }

  /** The tenant sees the same late-fee figures as the landlord, on every bill
      the tenant can open. */
  lemma TenantSeesLandlordFigures(bills: seq<Bill>, rooms: seq<Entities.Room>, userId: string, billId: int,
                                  today: Date)
    requires FindVisibleBill(bills, userId, billId).Some?
    ensures TenantBillDetails(bills, rooms, userId, billId, today).Ok?
    ensures Landlord.BillDetails(bills, rooms, billId, today).Ok?
    ensures TenantBillDetails(bills, rooms, userId, billId, today).value ==
            Landlord.BillDetails(bills, rooms, billId, today).value
  {
  }

  /** Approving a bill makes it visible to its tenant, and to no one else. */
  lemma ApprovedBillBecomesVisible(b: Bill, userId: string)
    ensures Visible(Landlord.BillApproved(b), userId) <==> userId == b.tenantId
  {
  }

  // ---------------------------------------------------------------------------
  // Cash payments started by the tenant

  /** The bill after `InitiatePayment`: pending, with a cash reference. */
  function Initiated(b: Bill, stamp: string): (r: Bill)
    ensures r.status == Pending && r.paymentReference == Some("Cash-" + stamp)
    ensures r.(status := b.status, paymentReference := b.paymentReference) == b
  {
    b.(status := Pending, paymentReference := Some("Cash-" + stamp))
  }

  /** `InitiatePayment`: any bill of the tenant's, whatever its status and
      approval, becomes pending. */
  method InitiatePayment(db: Database, userId: string, billId: int, stamp: string) returns (r: Result<Bill, TenantError>)
    modifies db`bills
    ensures var owned := 0 <= billId < |old(db.bills)| && old(db.bills)[billId].tenantId == userId;
            (!owned ==> r == Err(BillNotFound) && db.bills == old(db.bills)) &&
            (owned ==> r == Ok(Initiated(old(db.bills)[billId], stamp)) &&
                       db.bills == old(db.bills)[billId := r.value])
  {
    var found := FindBill(db.bills, billId);
    if found.None? || found.value.tenantId != userId {
      return Err(BillNotFound);
    }
    var bill := Initiated(found.value, stamp);
    db.bills := db.bills[billId := bill];
    return Ok(bill);
  }

  /** The bill after `ConfirmPayment`: paid on `now` by the given method and
      reference; the amount paid is left as it was. */
  function Confirmed(b: Bill, reference: string, paymentMethod: string, now: Date): (r: Bill)
    ensures r.status == Paid && r.paymentDate == Some(now)
    ensures r.paymentReference == Some(reference) && r.paymentMethod == Some(paymentMethod)
    ensures r.amountPaid == b.amountPaid && TotalAmount(r) == TotalAmount(b)
    ensures r.(status := b.status, paymentDate := b.paymentDate, paymentReference := b.paymentReference,
               paymentMethod := b.paymentMethod) == b
  {
    b.(status := Paid, paymentDate := Some(now), paymentReference := Some(reference),
       paymentMethod := Some(paymentMethod))
  }

  /** `ConfirmPayment`: a pending bill of the tenant's with a reference becomes
      paid, and one payment of the bill's amount is recorded. */
  method ConfirmPayment(db: Database, userId: string, billId: int, reference: string, paymentMethod: string,
                        now: Date) returns (r: Result<Bill, TenantError>)
    modifies db`bills, db`payments
    ensures var ok := 0 <= billId < |old(db.bills)| && old(db.bills)[billId].tenantId == userId &&
                      old(db.bills)[billId].status == Pending;
            (!ok ==> r == Err(BillNotFound)) &&
            (ok && |reference| == 0 ==> r == Err(ReferenceRequired)) &&
            (r.Err? ==> db.bills == old(db.bills) && db.payments == old(db.payments)) &&
            (ok && |reference| > 0 ==>
               var b := old(db.bills)[billId];
               r == Ok(Confirmed(b, reference, paymentMethod, now)) &&
               db.bills == old(db.bills)[billId := r.value] &&
               db.payments == old(db.payments) +
                              [Payment(billId, Some(userId), Amount(b), now, paymentMethod, Some(reference), None)])
  {
    var found := FindBill(db.bills, billId);
    if found.None? || found.value.tenantId != userId || found.value.status != Pending {
      return Err(BillNotFound);
    }
    if |reference| == 0 {
      return Err(ReferenceRequired);
    }
    var bill := Confirmed(found.value, reference, paymentMethod, now);
    db.bills := db.bills[billId := bill];
    db.payments := db.payments + [Payment(billId, Some(userId), Amount(found.value), now, paymentMethod,
                                          Some(reference), None)];
    return Ok(bill);
  }

  /** The bill after `CancelPayment`: unpaid again, without a reference. */
  function PaymentCancelled(b: Bill): (r: Bill)
    ensures r.status == NotPaid && r.paymentReference.None?
    ensures r.(status := b.status, paymentReference := b.paymentReference) == b
  {
    b.(status := NotPaid, paymentReference := None)
  }

  /** `CancelPayment`: a pending bill of the tenant's becomes unpaid again. */
  method CancelPayment(db: Database, userId: string, billId: int) returns (r: Result<Bill, TenantError>)
    modifies db`bills
    ensures var ok := 0 <= billId < |old(db.bills)| && old(db.bills)[billId].tenantId == userId &&
                      old(db.bills)[billId].status == Pending;
            (!ok ==> r == Err(BillNotFound) && db.bills == old(db.bills)) &&
            (ok ==> r == Ok(PaymentCancelled(old(db.bills)[billId])) && db.bills == old(db.bills)[billId := r.value])
  {
    var found := FindBill(db.bills, billId);
    if found.None? || found.value.tenantId != userId || found.value.status != Pending {
      return Err(BillNotFound);
    }
    var bill := PaymentCancelled(found.value);
    db.bills := db.bills[billId := bill];
    return Ok(bill);
  }

  /** Cancelling undoes starting a payment on an unpaid bill without a reference. */
  lemma CancelUndoesInitiate(b: Bill, stamp: string)
    requires b.status == NotPaid && b.paymentReference.None?
    ensures PaymentCancelled(Initiated(b, stamp)) == b
  {
  }

  /** A tenant's action on a bill, with what it needs from the request. */
  datatype TenantAction =
    | Initiate(stamp: string)
    | Confirm(reference: string, paymentMethod: string, now: Date)
    | Cancel

  /** One action on one of the tenant's bills, as the controller applies it; a
      refused action leaves the bill as it is. */
  function TenantStep(b: Bill, action: TenantAction): (r: Bill)
    ensures action.Initiate? ==> r.status == Pending
    ensures b.status != Pending && !action.Initiate? ==> r == b
  {
    match action
    case Initiate(stamp) => Initiated(b, stamp)
    case Confirm(reference, paymentMethod, now) =>
      if b.status == Pending && |reference| > 0 then Confirmed(b, reference, paymentMethod, now) else b
    case Cancel => if b.status == Pending then PaymentCancelled(b) else b
  }

  /** A run of tenant actions on one bill. */
  function TenantSteps(b: Bill, actions: seq<TenantAction>): Bill
    decreases |actions|
  {
    if |actions| == 0 then b else TenantSteps(TenantStep(b, actions[0]), actions[1..])
  }

  /** As written, a tenant can turn a paid bill back into an unpaid one:
      starting a payment on it and cancelling leaves it NotPaid, with the
      amount already paid still recorded. */
  lemma TenantCanUnpayPaidBill(b: Bill, stamp: string)
    requires b.status == Paid
    ensures var r := TenantSteps(b, [Initiate(stamp), Cancel]);
            r.status == NotPaid && r.amountPaid == b.amountPaid && r.paymentDate == b.paymentDate
  {
    var started := TenantStep(b, Initiate(stamp));
    assert [Initiate(stamp), Cancel][1..] == [Cancel];
    assert TenantSteps(b, [Initiate(stamp), Cancel]) == TenantSteps(started, [Cancel]);
    assert TenantSteps(started, [Cancel]) == TenantSteps(PaymentCancelled(started), []);
  }

  /** Whether a tenant may start a payment on a bill in this state: only one
      still owed. */
  predicate MayInitiate(b: Bill) {
    b.status == NotPaid || b.status == BillStatus.Overdue
  }

  /** One tenant action, with starting a payment refused for a bill not owed. */
  function GuardedTenantStep(b: Bill, action: TenantAction): (r: Bill)
    ensures action.Initiate? && MayInitiate(b) ==> r == Initiated(b, action.stamp)
    ensures !action.Initiate? ==> r == TenantStep(b, action)
    ensures action.Initiate? && !MayInitiate(b) ==> r == b
  {
    match action
    case Initiate(stamp) => if MayInitiate(b) then Initiated(b, stamp) else b
    case _ => TenantStep(b, action)
  }

  /** A run of guarded tenant actions on one bill. */
  function GuardedTenantSteps(b: Bill, actions: seq<TenantAction>): Bill
    decreases |actions|
  {
    if |actions| == 0 then b else GuardedTenantSteps(GuardedTenantStep(b, actions[0]), actions[1..])
  }

  /** With the guard, no run of tenant actions changes a paid bill. */
  lemma {:induction false} GuardedStepsKeepPaidBill(b: Bill, actions: seq<TenantAction>)
    requires b.status == Paid
    ensures GuardedTenantSteps(b, actions) == b
    decreases |actions|
  {
    if |actions| > 0 {
      assert GuardedTenantStep(b, actions[0]) == b;
      GuardedStepsKeepPaidBill(b, actions[1..]);
    }
  }

  /** The guard only refuses what it must: on a bill still owed, the guarded
      and the unguarded start agree. */
  lemma GuardAgreesOnOwedBills(b: Bill, action: TenantAction)
    requires MayInitiate(b)
    ensures GuardedTenantStep(b, action) == TenantStep(b, action)
  {
  }
}
